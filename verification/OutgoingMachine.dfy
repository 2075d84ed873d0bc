/** The outgoing path of one device as a step machine over the real server: any number of
    sends, retries and recoveries in any number of tabs, a network that may deliver, repeat,
    delay or lose every request and answer, and durable rows written in atomic transactions.
    A restart is a run in which the interrupted processes take no further step. */
module OutgoingMachine {
  import opened Common
  import opened Base64
  import opened MessageTables
  import ST = ServerTransactions

  datatype Command = Command(chat: nat, clientId: nat, envelopes: seq<ClientEnvelope>)

  datatype Row = Row(command: Command, accepted: Option<Message>)

  datatype DestinationDevice = DestinationDevice(id: nat, user: nat, protocol: int)

  /** Whom sendAndConfirm returns to. */
  datatype Caller = NewText(text: Bytes, attempt: nat) | Recovery(row: Row)

  datatype Point =
    | Begun(text: Bytes, given: bool)
    | Devices(text: Bytes, attempt: nat, replace: bool)
    | PutRow(text: Bytes, attempt: nat, replace: bool, command: Command)
    | Transmit(caller: Caller, command: Command, tries: nat)
    | AnswerWait(caller: Caller, command: Command, tries: nat)
    | ConfirmRead(caller: Caller, command: Command, round: nat)
    | ConfirmLookup(caller: Caller, command: Command, round: nat)
    | ConfirmReread(caller: Caller, command: Command, round: nat)
    | RecoverLookup(row: Row)
    | RecoverRead(row: Row)
    | LateRead(message: Message)
    | Accept(message: Message)
    | Ended(result: Option<Message>)

  datatype Process = Process(chat: nat, clientId: nat, at: Point)

  /** `typed` records the text of the first row ever stored for a client message id; never read. */
  datatype Outbox = Outbox(server: ST.Server, user: nat, device: nat, rows: map<nat, Row>, wire: set<ST.SendRequest>,
                           procs: map<nat, Process>, typed: map<nat, Bytes>)

  datatype Event =
    | ServerStep(step: ST.Label)                         // includes the arrival of a transmitted request
    | SendText(p: nat, chat: nat, text: Bytes, clientId: nat, given: bool)
    | Retry(p: nat, clientId: nat)                       // retryOutgoing, or one command of recoverOutgoing
    | LateAcceptance(p: nat, t: nat)                     // the answer of call t arrives after its request timed out
    | GotDevices(p: nat, devices: seq<DestinationDevice>)
    | Advance(p: nat)                                    // a process takes its next step
    | Answer(p: nat, t: nat)                             // a process receives what call t returned
    | Unconfirmed(p: nat)                                // no answer, or one that does not tell
    | Throw(p: nat)                                      // any other failure: transaction, session change, decoding

  // ---- the codec ----

  function BuildOutgoing(text: Bytes, devices: seq<DestinationDevice>): (es: seq<ClientEnvelope>)
    ensures |es| == |devices|
    ensures forall i :: 0 <= i < |es| ==>
      es[i] == ClientEnvelope(devices[i].id, PLAINTEXT_PROTOCOL, PLAINTEXT_TYPE, Encode(text))
  {
    seq(|devices|, i requires 0 <= i < |devices| =>
      ClientEnvelope(devices[i].id, PLAINTEXT_PROTOCOL, PLAINTEXT_TYPE, Encode(text)))
  }

  function DecodeIncoming(e: ClientEnvelope): Option<Bytes>
  {
    if e.protocol != PLAINTEXT_PROTOCOL || e.kind != PLAINTEXT_TYPE then None else Decode(e.payload)
  }

  // ---- the durable rows ----

  datatype RowError = AlreadyAccepted | OtherChat | Immutable | MissingRow | OtherSender

  function PutOutgoing(rows: map<nat, Row>, command: Command, replace: bool): Result<map<nat, Row>, RowError>
  {
    if command.clientId in rows then
      var existing := rows[command.clientId];
      if replace then
        if existing.accepted.Some? then Err(AlreadyAccepted)
        else if existing.command.chat != command.chat then Err(OtherChat)
        else Ok(rows[command.clientId := Row(command, None)])
      else if existing.command != command then Err(Immutable)
      else Ok(rows)
    else Ok(rows[command.clientId := Row(command, None)])
  }

  function AcceptOutgoing(rows: map<nat, Row>, user: nat, device: nat, m: Message): Result<map<nat, Row>, RowError>
  {
    if m.senderDevice != device || m.senderUser != user then Err(OtherSender)
    else if m.clientId !in rows then Err(MissingRow)
    else if rows[m.clientId].command.chat != m.chat then Err(OtherChat)
    else Ok(rows[m.clientId := rows[m.clientId].(accepted := Some(m))])
  }

  // ---- steps ----

  function Goto(w: Outbox, p: nat, at: Point): Outbox
    requires p in w.procs
  {
    w.(procs := w.procs[p := w.procs[p].(at := at)])
  }

  function Fail(w: Outbox, p: nat): Outbox
    requires p in w.procs
  {
    Goto(w, p, Ended(None))
  }

  function Request(w: Outbox, c: Command): ST.SendRequest
  {
    ST.SendRequest(w.user, w.device, c.chat, c.clientId, c.envelopes)
  }

  function AcceptedOf(w: Outbox, clientId: nat): Option<Message>
  {
    if clientId in w.rows then w.rows[clientId].accepted else None
  }

  /** The server has rejected the command's target devices. */
  function Rejected(w: Outbox, p: nat, caller: Caller): Outbox
    requires p in w.procs
  {
    match caller
    case NewText(text, attempt) => if attempt >= 1 then Fail(w, p) else Goto(w, p, Devices(text, attempt + 1, true))
    case Recovery(row) =>
      if row.accepted.Some? || row.command.envelopes == [] then Fail(w, p) else
      match DecodeIncoming(row.command.envelopes[0])
      case None => Fail(w, p)
      case Some(text) =>
        w.(procs := w.procs[p := Process(row.command.chat, row.command.clientId, Devices(text, 0, true))])
  }

  /** `tries` counts transmissions; after the first come three rounds of confirmation. */
  function Unclear(w: Outbox, p: nat, caller: Caller, command: Command, round: nat): Outbox
    requires p in w.procs
  {
    if round >= 3 then Fail(w, p) else Goto(w, p, ConfirmRead(caller, command, round))
  }

  function DevicesStep(w: Outbox, p: nat, devices: seq<DestinationDevice>): Outbox
    requires p in w.procs && w.procs[p].at.Devices?
  {
    var Process(chat, clientId, Devices(text, attempt, replace)) := w.procs[p];
    if (forall d :: d in devices ==> d.user == w.user) || (exists d :: d in devices && d.protocol != PLAINTEXT_PROTOCOL)
    then Fail(w, p)
    else Goto(w, p, PutRow(text, attempt, replace, Command(chat, clientId, BuildOutgoing(text, devices))))
  }

  function PutStep(w: Outbox, p: nat): Outbox
    requires p in w.procs && w.procs[p].at.PutRow?
  {
    var PutRow(text, attempt, replace, command) := w.procs[p].at;
    match PutOutgoing(w.rows, command, replace)
    case Err(_) => Fail(w, p)
    case Ok(rows) =>
      var typed := if command.clientId in w.rows then w.typed else w.typed[command.clientId := text];
      Goto(w.(rows := rows, typed := typed), p, Transmit(NewText(text, attempt), command, 0))
  }

  /** An acceptance that was found, or the step to take when there is none. */
  function AcceptOr(w: Outbox, p: nat, found: Option<Message>, otherwise: Point): Outbox
    requires p in w.procs
  {
    Goto(w, p, if found.Some? then Accept(found.value) else otherwise)
  }

  /** A round of confirmation: local row, server lookup, local row again, and only then a replay. */
  function ConfirmStep(w: Outbox, p: nat): Outbox
    requires p in w.procs
  {
    match w.procs[p].at
    case ConfirmRead(caller, command, round) =>
      AcceptOr(w, p, AcceptedOf(w, command.clientId), ConfirmLookup(caller, command, round))
    case ConfirmLookup(caller, command, round) =>
      AcceptOr(w, p, FindByClient(w.server.db.messages, w.device, command.clientId),
               ConfirmReread(caller, command, round))
    case ConfirmReread(caller, command, round) =>
      AcceptOr(w, p, AcceptedOf(w, command.clientId), Transmit(caller, command, round + 1))
    case _ => w
  }

  function RecoverStep(w: Outbox, p: nat): Outbox
    requires p in w.procs
  {
    match w.procs[p].at
    case RecoverLookup(row) =>
      AcceptOr(w, p, FindByClient(w.server.db.messages, w.device, row.command.clientId).Or(row.accepted),
               RecoverRead(row))
    case RecoverRead(row) =>
      AcceptOr(w, p, AcceptedOf(w, row.command.clientId), Transmit(Recovery(row), row.command, 0))
    case _ => w
  }

  function AcceptStep(w: Outbox, p: nat, m: Message): Outbox
    requires p in w.procs
  {
    match AcceptOutgoing(w.rows, w.user, w.device, m)
    case Err(_) => Fail(w, p)
    case Ok(rows) => Goto(w.(rows := rows), p, Ended(Some(m)))
  }

  function AdvanceStep(w: Outbox, p: nat): Outbox
    requires p in w.procs
  {
    var proc := w.procs[p];
    match proc.at
    case Begun(text, given) =>
      if given && proc.clientId in w.rows then
        (if w.rows[proc.clientId].command.chat != proc.chat then Fail(w, p)
         else Goto(w, p, RecoverLookup(w.rows[proc.clientId])))
      else Goto(w, p, Devices(text, 0, false))
    case PutRow(_, _, _, _) => PutStep(w, p)
    case Transmit(caller, command, tries) =>
      Goto(w.(wire := w.wire + {Request(w, command)}), p, AnswerWait(caller, command, tries))
    case ConfirmRead(_, _, _) => ConfirmStep(w, p)
    case ConfirmLookup(_, _, _) => ConfirmStep(w, p)
    case ConfirmReread(_, _, _) => ConfirmStep(w, p)
    case RecoverLookup(_) => RecoverStep(w, p)
    case RecoverRead(_) => RecoverStep(w, p)
    case LateRead(m) => if m.clientId in w.rows then Goto(w, p, Accept(m)) else Fail(w, p)
    case Accept(m) => AcceptStep(w, p, m)
    case Devices(_, _, _) => w
    case AnswerWait(_, _, _) => w
    case Ended(_) => w
  }

  function AnswerStep(w: Outbox, p: nat, t: nat): Outbox
    requires p in w.procs && w.procs[p].at.AnswerWait?
  {
    var AnswerWait(caller, command, tries) := w.procs[p].at;
    if t !in w.server.outcomes || t !in w.server.calls || w.server.calls[t] != ST.Send(Request(w, command)) then w else
    match w.server.outcomes[t]
    case Stored(m) => Goto(w, p, Accept(m))
    case Refused(why) =>
      if why == ST.TargetsChanged then Rejected(w, p, caller)
      else if why == ST.Aborted then Unclear(w, p, caller, command, tries)
      else Fail(w, p)
    case _ => Fail(w, p)
  }

  /** An error that leaves open what happened: the next confirmation round, or giving up. */
  function UnconfirmedStep(w: Outbox, p: nat): Outbox
    requires p in w.procs
  {
    match w.procs[p].at
    case AnswerWait(caller, command, tries) => Unclear(w, p, caller, command, tries)
    case ConfirmLookup(caller, command, round) => Unclear(w, p, caller, command, round + 1)
    case RecoverLookup(_) => Fail(w, p)
    case Devices(_, _, _) => Fail(w, p)
    case _ => w
  }

  /** No process is ever replaced by another. */
  function Spawn(w: Outbox, p: nat, proc: Process): Outbox
  {
    if p in w.procs then w else w.(procs := w.procs[p := proc])
  }

  function Next(w: Outbox, event: Event): Outbox
  {
    match event
    case ServerStep(l) =>
      // a send in this device's name arrives only if the device has transmitted it
      if l.Begin? && l.call.Send? && l.call.request.device == w.device && l.call.request !in w.wire then w
      else w.(server := ST.Apply(w.server, l))
    case SendText(p, chat, text, clientId, given) => Spawn(w, p, Process(chat, clientId, Begun(text, given)))
    case Retry(p, clientId) =>
      if clientId !in w.rows then w
      else Spawn(w, p, Process(w.rows[clientId].command.chat, clientId, RecoverLookup(w.rows[clientId])))
    case LateAcceptance(p, t) =>
      if t !in w.server.outcomes || t !in w.server.calls || !w.server.outcomes[t].Stored? || !w.server.calls[t].Send?
         || w.server.calls[t].request.device != w.device then w
      else
        var m := w.server.outcomes[t].message;
        Spawn(w, p, Process(m.chat, m.clientId, LateRead(m)))
    case GotDevices(p, devices) => if p in w.procs && w.procs[p].at.Devices? then DevicesStep(w, p, devices) else w
    case Advance(p) => if p in w.procs then AdvanceStep(w, p) else w
    case Answer(p, t) => if p in w.procs && w.procs[p].at.AnswerWait? then AnswerStep(w, p, t) else w
    case Unconfirmed(p) => if p in w.procs then UnconfirmedStep(w, p) else w
    case Throw(p) => if p in w.procs then Fail(w, p) else w
  }

  function History(w: Outbox, events: seq<Event>): Outbox
  {
    if events == [] then w else Next(History(w, events[..|events| - 1]), events[|events| - 1])
  }
}
