/** The session store of the client: restoring, signing in, signing out and managing devices all
    await the server, and a generation decides which answer still counts. */
module SessionLifecycle {
  import opened Common

  datatype Phase = Restoring | Anonymous | Authenticated

  /** What began a generation. A cleared or disposed store begins one without an operation. */
  datatype Kind = Restoration | SignIn | SigningOut | NoOperation

  /** `begun` records what began each generation, so that only its own answers exist, and `provenBy`
      the operation whose account load made the state authenticated. */
  datatype State = State(active: bool, generation: nat, revision: nat, phase: Phase, user: Option<nat>,
                         devices: seq<nat>, failed: bool, submitting: bool, signingOut: bool,
                         busyDevice: Option<nat>, begun: map<nat, Kind>, provenBy: Option<nat>)

  datatype Input =
    | Restore
    | RestoreEnded(operation: nat, signedIn: bool)            // false: nothing to restore, or an error
    | Authenticate
    | AccountLoaded(operation: nat, user: nat, devices: seq<nat>)
    | AuthenticateEnded(operation: nat, failed: bool)
    | SignOut
    | SignedOut(operation: nat)
    | Expired
    | RefreshDevices
    | DevicesLoaded(operation: nat, revision: nat, devices: seq<nat>)
    | DevicesFailed(operation: nat, revision: nat)
    | RevokeDevice(device: nat)
    | DeviceRevoked(operation: nat, own: bool)
    | RevokeFailed(operation: nat)
    | RevokeEnded(operation: nat)                             // after the refresh that follows a revocation
    | Dispose

  const INITIAL: State := State(false, 0, 0, Restoring, None, [], false, false, false, None, map[], None)

  predicate IsCurrent(s: State, operation: nat)
  {
    s.active && operation == s.generation
  }

  predicate IsOperation(s: State, operation: nat, kind: Kind)
  {
    IsCurrent(s, operation) && operation in s.begun && s.begun[operation] == kind
  }

  function Begin(s: State, kind: Kind): State
  {
    s.(generation := s.generation + 1, begun := s.begun[s.generation + 1 := kind])
  }

  function Clear(s: State): State
  {
    Begin(s, NoOperation).(phase := Anonymous, user := None, devices := [], submitting := false,
                           signingOut := false, busyDevice := None, provenBy := None)
  }

  function BeginSignOut(s: State): State
  {
    if !s.active || s.signingOut then s
    else Begin(s, SigningOut).(signingOut := true, submitting := false, busyDevice := None)
  }

  function BeginRefresh(s: State): State
  {
    if !s.active || s.phase != Authenticated || s.signingOut then s else s.(revision := s.revision + 1)
  }

  function Next(s: State, input: Input): State
  {
    match input
    case Restore =>
      Begin(s, Restoration).(active := true, phase := Restoring, user := None, devices := [], failed := false,
                             submitting := false, signingOut := false, busyDevice := None, provenBy := None)
    case RestoreEnded(operation, signedIn) =>
      if IsOperation(s, operation, Restoration) && !signedIn then Clear(s) else s
    case Authenticate =>
      if !s.active || s.phase != Anonymous || s.submitting || s.signingOut then s
      else Begin(s, SignIn).(submitting := true, failed := false)
    case AccountLoaded(operation, user, devices) =>
      if IsOperation(s, operation, Restoration) || IsOperation(s, operation, SignIn)
      then s.(phase := Authenticated, user := Some(user), devices := devices, failed := false,
              provenBy := Some(operation)) else s
    case AuthenticateEnded(operation, failed) =>
      if IsOperation(s, operation, SignIn) then s.(submitting := false, failed := failed) else s
    case SignOut => BeginSignOut(s)
    case SignedOut(operation) => if IsOperation(s, operation, SigningOut) then Clear(s) else s
    case Expired => if s.active then Clear(s) else s
    case RefreshDevices => BeginRefresh(s)
    case DevicesLoaded(operation, revision, devices) =>
      if IsCurrent(s, operation) && revision == s.revision then s.(devices := devices) else s
    case DevicesFailed(operation, revision) =>
      if IsCurrent(s, operation) && revision == s.revision then s.(failed := true) else s
    case RevokeDevice(device) =>
      if !s.active || s.phase != Authenticated || s.busyDevice.Some? || s.signingOut || device !in s.devices then s
      else s.(revision := s.revision + 1, busyDevice := Some(device))
    case DeviceRevoked(operation, own) =>
      if !IsCurrent(s, operation) || s.busyDevice.None? then s
      else if own then BeginSignOut(s) else BeginRefresh(s)
    case RevokeFailed(operation) =>
      if IsCurrent(s, operation) && s.busyDevice.Some? then s.(failed := true, busyDevice := None) else s
    case RevokeEnded(operation) => if IsCurrent(s, operation) then s.(busyDevice := None) else s
    case Dispose => Begin(s, NoOperation).(active := false)
  }

  function Run(s: State, inputs: seq<Input>): State
  {
    if inputs == [] then s else Next(Run(s, inputs[..|inputs| - 1]), inputs[|inputs| - 1])
  }

  /** An authenticated state that is in use was proved by the newest operation there is; a user is
      shown only in it; and a sign-out in progress has already outdated everything else. */
  ghost predicate Inv(s: State)
  {
    && (s.phase == Authenticated && s.active && !s.signingOut ==> s.provenBy == Some(s.generation))
    && (s.provenBy.Some? ==> s.provenBy.value <= s.generation)
    && (s.user.Some? ==> s.phase == Authenticated)
    && (s.signingOut && s.active ==> s.generation in s.begun && s.begun[s.generation] == SigningOut)
    && (s.signingOut ==> !s.submitting && s.busyDevice.None?)
    && (s.busyDevice.Some? ==> s.phase == Authenticated)
    && (forall g :: g in s.begun ==> g <= s.generation)
  }

  lemma NextKeeps(s: State, input: Input)
    requires Inv(s)
    ensures Inv(Next(s, input)) && Next(s, input).generation >= s.generation
  {
  }

  /** In every run: while the store is in use and not signing out, what it shows as authenticated was
      loaded by the newest operation, and a user is shown only then. */
  lemma {:induction false} AuthenticatedIsNewest(inputs: seq<Input>)
    ensures Inv(Run(INITIAL, inputs))
  {
    if inputs != [] {
      hide Inv, Next;
      AuthenticatedIsNewest(inputs[..|inputs| - 1]);
      NextKeeps(Run(INITIAL, inputs[..|inputs| - 1]), inputs[|inputs| - 1]);
    }
  }

  lemma NextGrows(s: State, input: Input)
    ensures Next(s, input).generation >= s.generation
  {
  }

  /** Generations only grow, so an operation that has been overtaken stays overtaken. */
  lemma {:induction false} OvertakenStays(s: State, inputs: seq<Input>)
    ensures Run(s, inputs).generation >= s.generation
  {
    hide Next;
    if inputs != [] {
      OvertakenStays(s, inputs[..|inputs| - 1]);
      NextGrows(Run(s, inputs[..|inputs| - 1]), inputs[|inputs| - 1]);
    }
  }

  predicate Completes(input: Input, operation: nat)
  {
    match input
    case RestoreEnded(o, _) => o == operation
    case AccountLoaded(o, _, _) => o == operation
    case AuthenticateEnded(o, _) => o == operation
    case SignedOut(o) => o == operation
    case DevicesLoaded(o, _, _) => o == operation
    case DevicesFailed(o, _) => o == operation
    case DeviceRevoked(o, _) => o == operation
    case RevokeFailed(o) => o == operation
    case RevokeEnded(o) => o == operation
    case _ => false
  }

  /** From the moment a restore, sign-in, sign-out, expiry or disposal has begun, no answer to
      anything begun before it changes the store, whenever it arrives. */
  lemma OvertakenIsInert(s: State, input: Input, later: seq<Input>, operation: nat, late: Input)
    requires operation <= s.generation && Completes(late, operation)
    requires Next(s, input).generation > s.generation
    ensures var after := Run(Next(s, input), later); Next(after, late) == after
  {
    hide Next;
    OvertakenStays(Next(s, input), later);
    StaleIsInert(Run(Next(s, input), later), operation, late);
  }

  lemma StaleIsInert(s: State, operation: nat, late: Input)
    requires Completes(late, operation) && !IsCurrent(s, operation)
    ensures Next(s, late) == s
  {
  }

  lemma RevisionGrows(s: State, input: Input)
    ensures Next(s, input).revision >= s.revision
  {
  }

  lemma {:induction false} RevisionOnlyGrows(s: State, inputs: seq<Input>)
    ensures Run(s, inputs).revision >= s.revision
  {
    hide Next;
    if inputs != [] {
      RevisionOnlyGrows(s, inputs[..|inputs| - 1]);
      RevisionGrows(Run(s, inputs[..|inputs| - 1]), inputs[|inputs| - 1]);
    }
  }

  /** Once a later list of devices was asked for, or a revocation has begun, no earlier request for
      the list changes the store, whatever it returns and whenever. */
  lemma OlderDevicesAreInert(s: State, inputs: seq<Input>, revision: nat, late: Input)
    requires revision < s.revision
    requires (late.DevicesLoaded? || late.DevicesFailed?) && late.revision == revision
    ensures var after := Run(s, inputs); revision < after.revision && Next(after, late) == after
  {
    RevisionOnlyGrows(s, inputs);
  }
}
