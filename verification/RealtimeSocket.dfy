/** The realtime connection: requests are correlated with answers over one socket at a time, and
    every request settles exactly once whatever the network, the timers and the session do. */
module RealtimeSocket {
  import opened Common

  const MAX_UNCONFIRMED: nat := 256
  const FIRST_DELAY: nat := 500
  const LONGEST_DELAY: nat := 30000

  datatype Kind = ReadPosition | Acknowledge | Synchronize | Send

  datatype Command = Command(chat: nat, clientId: nat)

  datatype Request = Request(kind: Kind, command: Command)

  datatype Frame =
    | AuthOk
    | Event                                                     // an event without a request
    | Response(kind: Kind, id: nat, command: Command)           // an answer; an acceptance names its message
    | Error(id: nat)

  /** A late acceptance that was reported to the handlers, and the connection it came over. */
  datatype Late = Late(id: nat, generation: nat)

  /** `connecting` while the access token for the current attempt is awaited; `socket` is the
      attempt whose socket is current; `timers` are the running request
      timers. `unconfirmed` keeps insertion order. The last fields record what happened and are never
      read: all requests ever made and their connection, how often each was settled, which sends
      timed out, the late acceptances, and the reconnect delays since the last reset. */
  datatype State = State(active: bool, generation: nat, connecting: bool, socket: Option<nat>, authenticated: bool,
                         retries: nat, reconnecting: bool, authTimer: bool, pending: map<nat, Request>,
                         timers: set<nat>, unconfirmed: seq<(nat, Command)>, issued: map<nat, nat>,
                         settled: multiset<nat>, timedOut: set<nat>, late: seq<Late>, delays: seq<nat>)

  datatype Input =
    | Start
    | Stop                                                      // also: the session was cleared
    | Token(generation: nat, result: TokenResult)
    | Receive(generation: nat, frame: Frame)
    | Close(generation: nat, final: bool)
    | ReconnectTimer
    | Make(id: nat, request: Request, isOpen: bool, sent: bool) // with a fresh identifier
    | RequestTimer(id: nat)

  datatype TokenResult = SocketCreated | Denied | Unavailable

  const INITIAL: State := State(false, 0, false, None, false, 0, false, false, map[], {}, [], map[], multiset{}, {}, [],
                                [])

  function Power(n: nat): nat
  {
    if n == 0 then 1 else 2 * Power(n - 1)
  }

  function Smaller(a: nat, b: nat): nat { if a <= b then a else b }

  function Delay(retries: nat): nat
  {
    Smaller(LONGEST_DELAY, FIRST_DELAY * Power(Smaller(retries, 6)))
  }

  // ---- pieces ----

  predicate Ready(s: State, isOpen: bool)
  {
    s.authenticated && s.socket.Some? && isOpen
  }

  predicate Current(s: State, generation: nat)
  {
    s.active && generation == s.generation && s.socket == Some(generation)
  }

  /** takePending, and settling what was taken. */
  function Settle(s: State, id: nat): State
  {
    if id !in s.pending then s
    else s.(pending := s.pending - {id}, timers := s.timers - {id}, settled := s.settled + multiset{id})
  }

  function RejectPending(s: State): State
  {
    s.(unconfirmed := [], pending := map[], timers := s.timers - s.pending.Keys,
       settled := s.settled + multiset(s.pending.Keys))
  }

  function StopStep(s: State): State
  {
    RejectPending(s.(active := false, generation := s.generation + 1, authenticated := false, retries := 0,
                     reconnecting := false, authTimer := false, connecting := false, socket := None, delays := []))
  }

  function ScheduleReconnect(s: State): State
  {
    s.(retries := s.retries + 1, reconnecting := true, delays := s.delays + [Delay(s.retries)])
  }

  function ConnectStep(s: State): State
  {
    s.(generation := s.generation + 1, connecting := true)
  }

  function TokenStep(s: State, generation: nat, result: TokenResult): State
  {
    if !s.active || generation != s.generation || !s.connecting then s else
    var s := s.(connecting := false);
    match result
    case SocketCreated => s.(socket := Some(generation), authTimer := true)
    case Denied => StopStep(s)
    case Unavailable => ScheduleReconnect(s)
  }

  function CloseStep(s: State, generation: nat, final: bool): State
  {
    if !Current(s, generation) then s else
    var s := RejectPending(s.(socket := None, authenticated := false, authTimer := false));
    if final then StopStep(s) else ScheduleReconnect(s)
  }

  function MakeStep(s: State, id: nat, r: Request, isOpen: bool, sent: bool): State
  {
    if !Ready(s, isOpen) || id in s.issued then s else
    var made := s.(pending := s.pending[id := r], timers := s.timers + {id}, issued := s.issued[id := s.generation]);
    if sent then made else Settle(made, id)
  }

  function WithoutId(unconfirmed: seq<(nat, Command)>, id: nat): (r: seq<(nat, Command)>)
    ensures |r| <= |unconfirmed| && forall u :: u in r <==> u in unconfirmed && u.0 != id
  {
    if unconfirmed == [] then []
    else (if unconfirmed[0].0 == id then [] else [unconfirmed[0]]) + WithoutId(unconfirmed[1..], id)
  }

  /** Setting an entry of an insertion-ordered map, and forgetting the oldest of too many. */
  function Remember(unconfirmed: seq<(nat, Command)>, id: nat, c: Command): seq<(nat, Command)>
  {
    var all := unconfirmed + [(id, c)];
    if |all| > MAX_UNCONFIRMED then all[1..] else all
  }

  function TimerStep(s: State, id: nat): State
  {
    if id !in s.timers || id !in s.pending then s else
    var r := s.pending[id];
    var noted := if r.kind.Send? then s.(unconfirmed := Remember(s.unconfirmed, id, r.command),
                                         timedOut := s.timedOut + {id}) else s;
    Settle(noted, id)
  }

  function LateStep(s: State, id: nat, c: Command): State
  {
    if (id, c) in s.unconfirmed
    then s.(unconfirmed := WithoutId(s.unconfirmed, id), late := s.late + [Late(id, s.generation)]) else s
  }

  function FrameStep(s: State, frame: Frame): State
  {
    if frame.AuthOk? then
      (if s.authenticated then s else s.(authTimer := false, authenticated := true, retries := 0, delays := []))
    else if !s.authenticated then s
    else
      match frame
      case Response(kind, id, c) =>
        if id in s.pending && s.pending[id].kind == kind then Settle(s, id)
        else if kind.Send? then LateStep(s, id, c) else s
      case Error(id) => Settle(s, id)
      case _ => s
  }

  function Next(s: State, input: Input): State
  {
    match input
    case Start => if s.active then s else ConnectStep(s.(active := true))
    case Stop => StopStep(s)
    case Token(generation, result) => TokenStep(s, generation, result)
    case Receive(generation, frame) => if Current(s, generation) then FrameStep(s, frame) else s
    case Close(generation, final) => CloseStep(s, generation, final)
    case ReconnectTimer =>
      if !s.reconnecting then s
      else if s.active then ConnectStep(s.(reconnecting := false)) else s.(reconnecting := false)
    case Make(id, r, isOpen, sent) => MakeStep(s, id, r, isOpen, sent)
    case RequestTimer(id) => TimerStep(s, id)
  }

  function Run(s: State, inputs: seq<Input>): State
  {
    if inputs == [] then s else Next(Run(s, inputs[..|inputs| - 1]), inputs[|inputs| - 1])
  }

  // ---- invariants ----

  /** Every request is pending, or settled exactly once; each pending one has its timer. */
  ghost predicate RequestsOk(s: State)
  {
    && s.pending.Keys <= s.issued.Keys && s.timers == s.pending.Keys
    && (forall id :: s.settled[id] == if id in s.issued && id !in s.pending then 1 else 0)
    && (s.pending != map[] ==> s.socket.Some?)
    && (forall id :: id in s.pending ==> s.issued[id] == s.generation)
  }

  ghost predicate Distinct(unconfirmed: seq<(nat, Command)>)
  {
    forall i, j :: 0 <= i < j < |unconfirmed| ==> unconfirmed[i].0 != unconfirmed[j].0
  }

  ghost predicate TimedOutHere(s: State, id: nat)
  {
    id in s.timedOut && id in s.issued && s.issued[id] == s.generation && id !in s.pending
  }

  /** What is unconfirmed timed out on the current connection and was not accepted late yet. */
  ghost predicate UnconfirmedOk(s: State)
  {
    && |s.unconfirmed| <= MAX_UNCONFIRMED && Distinct(s.unconfirmed)
    && (s.unconfirmed != [] ==> s.socket.Some?)
    && (forall u :: u in s.unconfirmed ==> TimedOutHere(s, u.0) && forall l :: l in s.late ==> l.id != u.0)
    && (forall id :: id in s.timedOut ==> id in s.issued && id !in s.pending)
  }

  ghost predicate LateOk(s: State)
  {
    && (forall l :: l in s.late ==> l.id in s.timedOut && l.id in s.issued && s.issued[l.id] == l.generation)
    && (forall i, j :: 0 <= i < j < |s.late| ==> s.late[i].id != s.late[j].id)
  }

  ghost predicate ConnectionOk(s: State)
  {
    && (s.socket.Some? ==> s.active && s.socket.value == s.generation && !s.reconnecting && !s.connecting)
    && (s.connecting ==> s.active && !s.reconnecting)
    && (s.authenticated ==> s.socket.Some?)
    && (s.authTimer ==> s.socket.Some? && !s.authenticated)
    && (s.reconnecting ==> s.active)
  }

  /** Delays since the last reset lie in 500..30000 and never shrink. */
  ghost predicate DelaysOk(s: State)
  {
    && (forall i :: 0 <= i < |s.delays| ==> FIRST_DELAY <= s.delays[i] <= LONGEST_DELAY)
    && (forall i, j :: 0 <= i <= j < |s.delays| ==> s.delays[i] <= s.delays[j])
    && |s.delays| == s.retries
    && (forall i :: 0 <= i < |s.delays| ==> s.delays[i] <= Delay(s.retries))
  }

  ghost predicate Inv(s: State)
  {
    RequestsOk(s) && UnconfirmedOk(s) && LateOk(s) && ConnectionOk(s) && DelaysOk(s)
  }

  lemma {:induction false} PowerGrows(a: nat, b: nat)
    requires a <= b
    ensures 1 <= Power(a) <= Power(b)
    decreases b
  {
    if a < b {
      PowerGrows(a, b - 1);
    } else if b > 0 {
      PowerGrows(a - 1, b - 1);
    }
  }

  /** The delay starts at 500, never shrinks with the retries, and stays at 30000. */
  lemma DelayGrows(a: nat, b: nat)
    requires a <= b
    ensures FIRST_DELAY <= Delay(a) <= Delay(b) <= LONGEST_DELAY && Delay(0) == FIRST_DELAY
    ensures a >= 6 ==> Delay(a) == LONGEST_DELAY
  {
    PowerGrows(Smaller(a, 6), Smaller(b, 6));
    assert Power(6) == 64 by { assert Power(3) == 8; assert Power(6) == 8 * Power(3); }
  }

  lemma ScheduleKeeps(s: State)
    requires Inv(s) && s.socket.None? && s.active && !s.connecting
    ensures Inv(ScheduleReconnect(s))
  {
    hide RequestsOk, UnconfirmedOk, LateOk, Delay;
    var after := ScheduleReconnect(s);
    SameRequests(s, after);
    DelayGrows(s.retries, s.retries + 1);
  }

  /** Requests do not notice what changes about the connection while it stays up or has none. */
  lemma SameRequests(s: State, after: State)
    requires RequestsOk(s) && UnconfirmedOk(s) && LateOk(s)
    requires after == s.(active := after.active, generation := after.generation, connecting := after.connecting,
                         socket := after.socket, authenticated := after.authenticated, retries := after.retries,
                         reconnecting := after.reconnecting, authTimer := after.authTimer, delays := after.delays)
    requires (after.socket == s.socket && after.generation == s.generation)
      || (s.pending == map[] && s.unconfirmed == [])
    ensures RequestsOk(after) && UnconfirmedOk(after) && LateOk(after)
  {
  }

  lemma RejectKeeps(s: State, after: State)
    requires RequestsOk(s) && UnconfirmedOk(s) && LateOk(s)
    requires after == s.(active := after.active, generation := after.generation, connecting := after.connecting,
                         socket := after.socket, authenticated := after.authenticated, retries := after.retries,
                         reconnecting := after.reconnecting, authTimer := after.authTimer, delays := after.delays)
    ensures RequestsOk(RejectPending(after)) && UnconfirmedOk(RejectPending(after)) && LateOk(RejectPending(after))
  {
    var rejected := RejectPending(after);
    forall id ensures rejected.settled[id] == if id in s.issued then 1 else 0 {
      assert multiset(s.pending.Keys)[id] == if id in s.pending then 1 else 0;
    }
  }

  lemma StopKeeps(s: State)
    requires Inv(s)
    ensures Inv(StopStep(s))
  {
    hide RequestsOk, UnconfirmedOk, LateOk;
    RejectKeeps(s, s.(active := false, generation := s.generation + 1, authenticated := false, retries := 0,
                      reconnecting := false, authTimer := false, connecting := false, socket := None, delays := []));
  }

  lemma CloseKeeps(s: State, generation: nat, final: bool)
    requires Inv(s)
    ensures Inv(CloseStep(s, generation, final))
  {
    if Current(s, generation) {
      hide RequestsOk, UnconfirmedOk, LateOk, DelaysOk;
      var down := s.(socket := None, authenticated := false, authTimer := false);
      RejectKeeps(s, down);
      assert DelaysOk(RejectPending(down)) by { SameDelays(s, RejectPending(down)); }
      hide RejectPending, StopStep, ScheduleReconnect;
      StopKeeps(RejectPending(down));
      RejectedIsDown(s, down);
      ScheduleKeeps(RejectPending(down));
    }
  }

  lemma RejectedIsDown(s: State, down: State)
    ensures RejectPending(down).socket == down.socket && RejectPending(down).active == down.active
    ensures RejectPending(down).connecting == down.connecting
  {
  }

  lemma SameDelays(s: State, after: State)
    requires DelaysOk(s) && after.delays == s.delays && after.retries == s.retries
    ensures DelaysOk(after)
  {
  }

  lemma SettleKeeps(s: State, id: nat)
    requires Inv(s)
    ensures Inv(Settle(s, id))
  {
    var after := Settle(s, id);
    assert LateOk(after) && ConnectionOk(after);
    SameDelays(s, after);
    hide LateOk, ConnectionOk, DelaysOk;
    assert RequestsOk(after) by { hide UnconfirmedOk; }
    assert UnconfirmedOk(after);
  }

  lemma MakeKeeps(s: State, id: nat, r: Request, isOpen: bool, sent: bool)
    requires Inv(s)
    ensures Inv(MakeStep(s, id, r, isOpen, sent))
  {
    if Ready(s, isOpen) && id !in s.issued {
      var made := s.(pending := s.pending[id := r], timers := s.timers + {id}, issued := s.issued[id := s.generation]);
      SameDelays(s, made);
      assert Inv(made) by { hide DelaysOk; }
      hide Inv;
      SettleKeeps(made, id);
    }
  }

  lemma RememberKeeps(unconfirmed: seq<(nat, Command)>, id: nat, c: Command)
    requires Distinct(unconfirmed) && |unconfirmed| <= MAX_UNCONFIRMED && forall u :: u in unconfirmed ==> u.0 != id
    ensures Distinct(Remember(unconfirmed, id, c)) && |Remember(unconfirmed, id, c)| <= MAX_UNCONFIRMED
    ensures forall u :: u in Remember(unconfirmed, id, c) ==> u in unconfirmed || u == (id, c)
  {
    var all := unconfirmed + [(id, c)];
    assert Distinct(all) by {
      forall i, j | 0 <= i < j < |all| ensures all[i].0 != all[j].0 { assert all[i] in unconfirmed; }
    }
  }

  lemma TimerKeeps(s: State, id: nat)
    requires Inv(s)
    ensures Inv(TimerStep(s, id))
  {
    if id in s.timers && id in s.pending && s.pending[id].kind.Send? {
      TimeoutKeeps(s, id);
    } else {
      SettleKeeps(s, id);
    }
  }

  lemma TimeoutKeeps(s: State, id: nat)
    requires Inv(s) && id in s.timers && id in s.pending && s.pending[id].kind.Send?
    ensures Inv(TimerStep(s, id))
  {
    var after := TimerStep(s, id);
    SameDelays(s, after);
    hide DelaysOk;
    RememberKeeps(s.unconfirmed, id, s.pending[id].command);
    hide Remember, Distinct;
    assert RequestsOk(after) by { hide UnconfirmedOk, LateOk, ConnectionOk; }
    assert LateOk(after) by { hide UnconfirmedOk, RequestsOk, ConnectionOk; }
    assert forall l :: l in s.late ==> l.id != id;
    assert UnconfirmedOk(after) by { hide LateOk, ConnectionOk; }
  }

  lemma {:induction false} WithoutKeeps(unconfirmed: seq<(nat, Command)>, id: nat)
    requires Distinct(unconfirmed)
    ensures Distinct(WithoutId(unconfirmed, id))
  {
    if unconfirmed != [] {
      WithoutKeeps(unconfirmed[1..], id);
      forall u | u in unconfirmed[1..] ensures u.0 != unconfirmed[0].0 {
        var i :| 0 <= i < |unconfirmed| - 1 && unconfirmed[1..][i] == u;
      }
    }
  }

  lemma LateKeeps(s: State, id: nat, c: Command)
    requires Inv(s)
    ensures Inv(LateStep(s, id, c))
  {
    if (id, c) in s.unconfirmed {
      var after := LateStep(s, id, c);
      SameDelays(s, after);
      hide DelaysOk;
      assert TimedOutHere(s, id);
      WithoutKeeps(s.unconfirmed, id);
      hide WithoutId, Distinct;
      assert LateOk(after) by { hide RequestsOk, ConnectionOk; }
      assert UnconfirmedOk(after) by { hide RequestsOk, ConnectionOk, LateOk; }
    }
  }

  lemma FrameKeeps(s: State, frame: Frame)
    requires Inv(s) && s.socket.Some?
    ensures Inv(FrameStep(s, frame))
  {
    if frame.AuthOk? {
      hide RequestsOk, UnconfirmedOk, LateOk;
      if !s.authenticated {
        SameRequests(s, s.(authTimer := false, authenticated := true, retries := 0, delays := []));
      }
    } else {
      hide Inv, Settle, LateStep;
      match frame
      case Response(_, id, c) =>
        SettleKeeps(s, id);
        LateKeeps(s, id, c);
      case Error(id) => SettleKeeps(s, id);
      case _ =>
    }
  }

  lemma ConnectKeeps(s: State, after: State)
    requires Inv(s) && s.socket.None? && after == ConnectStep(s.(active := true, reconnecting := false))
    ensures Inv(after)
  {
    SameDelays(s, after);
    hide DelaysOk, LateOk;
    assert s.pending == map[] && s.unconfirmed == [];
    hide RequestsOk, UnconfirmedOk;
    SameRequests(s, after);
  }

  lemma AnsweredKeeps(s: State)
    requires Inv(s)
    ensures Inv(s.(connecting := false))
  {
    hide RequestsOk, UnconfirmedOk, LateOk, DelaysOk;
    SameDelays(s, s.(connecting := false));
    SameRequests(s, s.(connecting := false));
  }

  lemma TokenKeeps(s: State, generation: nat, result: TokenResult)
    requires Inv(s)
    ensures Inv(TokenStep(s, generation, result))
  {
    if s.active && generation == s.generation && s.connecting {
      AnsweredKeeps(s);
      var answered := s.(connecting := false);
      assert answered.socket.None?;
      match result
      case SocketCreated =>
        var after := answered.(socket := Some(generation), authTimer := true);
        SameDelays(answered, after);
        assert answered.pending == map[] && answered.unconfirmed == [] && !answered.authenticated
          && !answered.reconnecting;
        hide RequestsOk, UnconfirmedOk, LateOk, DelaysOk;
        SameRequests(answered, after);
      case Denied => hide Inv; StopKeeps(answered);
      case Unavailable => hide Inv; ScheduleKeeps(answered);
    }
  }

  lemma NextKeeps(s: State, input: Input)
    requires Inv(s)
    ensures Inv(Next(s, input))
  {
    assert ConnectionOk(s);
    assert s.reconnecting ==> s.socket.None? && s.active;
    assert !s.active ==> s.socket.None? && !s.reconnecting;
    hide Inv, TokenStep, FrameStep, CloseStep, MakeStep, TimerStep, StopStep;
    match input
    case Start => if !s.active { ConnectKeeps(s, ConnectStep(s.(active := true))); }
    case Stop => StopKeeps(s);
    case Token(generation, result) => TokenKeeps(s, generation, result);
    case Receive(generation, frame) => if Current(s, generation) { FrameKeeps(s, frame); }
    case Close(generation, final) => CloseKeeps(s, generation, final);
    case ReconnectTimer => if s.reconnecting { ConnectKeeps(s, ConnectStep(s.(reconnecting := false))); }
    case Make(id, r, isOpen, sent) => MakeKeeps(s, id, r, isOpen, sent);
    case RequestTimer(id) => TimerKeeps(s, id);
  }

  lemma {:induction false} RunKeeps(inputs: seq<Input>)
    ensures Inv(Run(INITIAL, inputs))
  {
    if inputs == [] {
      assert Inv(INITIAL);
    } else {
      hide Inv, Next;
      RunKeeps(inputs[..|inputs| - 1]);
      NextKeeps(Run(INITIAL, inputs[..|inputs| - 1]), inputs[|inputs| - 1]);
    }
  }

  /** In every run each request is still pending or was settled exactly once, with one timer per
      pending request; a late acceptance is reported at most once, for a send that timed out, over
      the connection it was sent on; at most 256 are remembered. */
  lemma RequestsSettleOnce(inputs: seq<Input>, id: nat)
    ensures var s := Run(INITIAL, inputs);
      && s.settled[id] + (if id in s.pending then 1 else 0) == (if id in s.issued then 1 else 0)
      && (id in s.timers <==> id in s.pending)
      && |s.unconfirmed| <= MAX_UNCONFIRMED
      && (forall l :: l in s.late ==>
          l.id in s.timedOut && l.id in s.issued && s.issued[l.id] == l.generation && s.settled[l.id] == 1)
      && (forall i, j :: 0 <= i < j < |s.late| ==> s.late[i].id != s.late[j].id)
  {
    hide Run, ConnectionOk, DelaysOk;
    RunKeeps(inputs);
  }

  /** Without a connection nothing is pending, so every request of a lost or stopped one is settled. */
  lemma NothingPendingWithoutSocket(inputs: seq<Input>)
    ensures var s := Run(INITIAL, inputs);
      s.socket.None? ==>
        s.pending == map[] && s.unconfirmed == [] && s.timers == {} && forall id :: id in s.issued ==>
          s.settled[id] == 1
  {
    hide Run, LateOk, DelaysOk;
    RunKeeps(inputs);
  }

  /** Reconnect delays stay in 500..30000 and do not shrink until authentication or a stop. */
  lemma DelaysBackOff(inputs: seq<Input>, i: nat, j: nat)
    requires i <= j < |Run(INITIAL, inputs).delays|
    ensures FIRST_DELAY <= Run(INITIAL, inputs).delays[i] <= Run(INITIAL, inputs).delays[j] <= LONGEST_DELAY
  {
    hide Run, RequestsOk, UnconfirmedOk, LateOk, ConnectionOk;
    RunKeeps(inputs);
  }

  // ---- the manager itself ----

  /** Rejecting everything, field by field. */
  predicate Rejected(s: State, after: State)
  {
    && after.unconfirmed == [] && after.pending == map[] && after.timers == s.timers - s.pending.Keys
    && after.settled == s.settled + multiset(s.pending.Keys)
    && after.issued == s.issued && after.timedOut == s.timedOut && after.late == s.late
  }

  lemma StoppedIs(s: State, after: State)
    requires Rejected(s, after) && after.delays == [] && !after.active && !after.authenticated && after.retries == 0
    requires after.generation == s.generation + 1 && !after.reconnecting && !after.authTimer && !after.connecting
    requires after.socket.None?
    ensures after == StopStep(s)
  {
  }

  lemma ClosedIs(s: State, after: State, attempt: nat, final: bool)
    requires Current(s, attempt) && Rejected(s, after) && after.delays == s.delays && after.active == s.active
    requires after.retries == s.retries && after.generation == s.generation && after.reconnecting == s.reconnecting
    requires after.connecting == s.connecting && !after.authenticated && !after.authTimer && after.socket.None?
    ensures CloseStep(s, attempt, final) == if final then StopStep(after) else ScheduleReconnect(after)
  {
    hide StopStep, ScheduleReconnect;
  }

  lemma NotCurrent(s: State, attempt: nat, final: bool)
    requires !Current(s, attempt)
    ensures CloseStep(s, attempt, final) == s
  {
  }

  class WebSocketManager {
    var active: bool
    var generation: nat
    var connecting: bool
    var socket: Option<nat>
    var authenticated: bool
    var retries: nat
    var reconnecting: bool
    var authTimer: bool
    var pending: map<nat, Request>
    var timers: set<nat>
    var unconfirmed: seq<(nat, Command)>
    ghost var issued: map<nat, nat>
    ghost var settled: multiset<nat>
    ghost var timedOut: set<nat>
    ghost var late: seq<Late>
    ghost var delays: seq<nat>

    ghost function Contents(): State
      reads this
    {
      State(active, generation, connecting, socket, authenticated, retries, reconnecting, authTimer, pending, timers,
            unconfirmed, issued, settled, timedOut, late, delays)
    }

    constructor ()
      ensures Contents() == INITIAL
    {
      active, generation, connecting, socket, authenticated, retries := false, 0, false, None, false, 0;
      reconnecting, authTimer, pending, timers, unconfirmed := false, false, map[], {}, [];
      issued, settled, timedOut, late, delays := map[], multiset{}, {}, [], [];
    }

    /** Whether a request with this identifier was pending; its timer is cleared with it. */
    method TakePending(id: nat) returns (taken: bool)
      modifies this
      ensures taken == (id in old(pending)) && Contents() == Settle(old(Contents()), id)
    {
      if id !in pending { return false; }
      pending := pending - {id};
      timers := timers - {id};
      settled := settled + multiset{id};
      return true;
    }

    method RejectAll()
      modifies this`unconfirmed, this`pending, this`timers, this`settled
      ensures unconfirmed == [] && pending == map[] && timers == old(timers) - old(pending).Keys
      ensures settled == old(settled) + multiset(old(pending).Keys)
    {
      unconfirmed := [];
      var left, running := pending.Keys, timers;
      ghost var done: set<nat> := {};
      while left != {}
        invariant left !! done && left + done == pending.Keys && running == timers - done
        decreases |left|
      {
        var id :| id in left;
        running := running - {id};
        done := done + {id};
        left := left - {id};
      }
      settled := settled + multiset(done);
      timers, pending := running, map[];
    }

    method Deactivate()
      modifies this`active, this`generation, this`connecting, this`authenticated, this`retries, this`reconnecting,
        this`delays
      ensures !active && generation == old(generation) + 1 && !connecting && !authenticated && retries == 0
      ensures !reconnecting && delays == []
    {
      active, authenticated, retries := false, false, 0;
      generation := generation + 1;
      reconnecting, connecting, delays := false, false, [];
    }

    method DropSocket()
      modifies this`socket, this`authenticated, this`authTimer
      ensures socket.None? && !authenticated && !authTimer
    {
      socket, authenticated, authTimer := None, false, false;
    }

    method Halt()
      modifies this
      ensures Contents() == StopStep(old(Contents()))
    {
      hide StopStep, RejectPending;
      ghost var before := Contents();
      Deactivate();
      DropSocket();
      RejectAll();
      StoppedIs(before, Contents());
    }

    method Reconnect() returns (delay: nat)
      modifies this
      ensures delay == Delay(old(retries)) && Contents() == ScheduleReconnect(old(Contents()))
    {
      delay := Delay(retries);
      retries := retries + 1;
      reconnecting := true;
      delays := delays + [delay];
    }

    method OnClose(attempt: nat, final: bool)
      modifies this
      ensures Contents() == CloseStep(old(Contents()), attempt, final)
    {
      hide StopStep, ScheduleReconnect, RejectPending, CloseStep;
      ghost var before := Contents();
      if !active || attempt != generation || socket != Some(attempt) {
        NotCurrent(before, attempt, final);
        return;
      }
      DropSocket();
      RejectAll();
      ClosedIs(before, Contents(), attempt, final);
      if final { Halt(); } else { var _ := Reconnect(); }
    }

    /** `id` is drawn fresh; `sent` tells whether the socket took the frame. */
    method Ask(id: nat, request: Request, isOpen: bool, sent: bool)
      requires id !in issued
      modifies this
      ensures Contents() == MakeStep(old(Contents()), id, request, isOpen, sent)
    {
      if !authenticated || socket.None? || !isOpen { return; }
      timers := timers + {id};
      pending := pending[id := request];
      issued := issued[id := generation];
      if !sent { var _ := TakePending(id); }
    }

    method OnRequestTimer(id: nat)
      modifies this
      ensures Contents() == TimerStep(old(Contents()), id)
    {
      if id !in timers || id !in pending { return; }
      var request := pending[id];
      if request.kind.Send? {
        unconfirmed := unconfirmed + [(id, request.command)];
        if |unconfirmed| > MAX_UNCONFIRMED { unconfirmed := unconfirmed[1..]; }
        timedOut := timedOut + {id};
      }
      var _ := TakePending(id);
    }

    /** An acceptance that no request waits for: reported if its send timed out on this connection. */
    method AcceptLate(id: nat, command: Command) returns (reported: bool)
      modifies this`unconfirmed, this`late
      ensures Contents() == LateStep(old(Contents()), id, command) && (reported <==> late != old(late))
    {
      reported := (id, command) in unconfirmed;
      if reported {
        unconfirmed := WithoutId(unconfirmed, id);
        late := late + [Late(id, generation)];
      }
    }

    method HandleFrame(frame: Frame) returns (lateAcceptance: bool)
      modifies this
      ensures Contents() == FrameStep(old(Contents()), frame) && (lateAcceptance <==> late != old(late))
    {
      hide LateStep;
      lateAcceptance := false;
      if frame.AuthOk? {
        if authenticated { return; }
        authTimer, authenticated, retries, delays := false, true, 0, [];
        return;
      }
      if !authenticated { return; }
      match frame
      case Response(kind, id, command) =>
        if id in pending && pending[id].kind == kind {
          var _ := TakePending(id);
        } else if kind.Send? {
          lateAcceptance := AcceptLate(id, command);
        }
      case Error(id) => var _ := TakePending(id);
      case _ =>
    }
  }
}
