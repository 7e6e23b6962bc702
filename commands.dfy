/**
 * The handler table: the three permanent side-channel handlers and the twelve
 * command constructors, each pairing a command payload with the handler that
 * interprets the inbound messages answering it.
 */
module Commands {
  import opened Wrappers
  import opened MessageTypes
  import K = MessageKinds
  import opened EventCallbacks
  import opened Settlement
  import opened ResolutionTable
  import C = CommandTypes

  /** The handler definitions; the InitSdk one is the caller's own callback. */
  datatype Handler =
    | InsertCardHandler
    | ReaderHandler
    | BadStateHandler
    | InitSdkHandler(callback: (Callbacks, Message) -> Step)
    | GetInfoHandler
    | RunAuthHandler
    | ChangePinHandler
    | EnterPukHandler
    | EnterCanHandler
    | EnterPinHandler
    | AcceptAuthReqHandler
    | GetCertificateHandler
    | CancelFlowHandler
    | SetAccessRightsHandler
    | SetNewPinHandler

  /** The `{command, handler}` object a command constructor returns. */
  datatype CommandPair = CommandPair(command: C.Command, handler: Handler)

  /** The `canHandle` list of each handler, in the order the source lists it. */
  function CanHandle(h: Handler): seq<K.MessageKind> {
    match h
    case InsertCardHandler => [K.InsertCard]
    case ReaderHandler => [K.Reader]
    case BadStateHandler => [K.BadState]
    case InitSdkHandler(_) => [K.Init]
    case GetInfoHandler => [K.Info]
    case RunAuthHandler => [K.AccessRights, K.Auth]
    case ChangePinHandler => [K.EnterPin, K.EnterPuk, K.EnterCan, K.ChangePin]
    case EnterPukHandler => [K.EnterPin, K.EnterPuk, K.ChangePin, K.Auth]
    case EnterCanHandler => [K.EnterPin, K.EnterCan, K.ChangePin, K.Auth]
    case EnterPinHandler => [K.EnterPuk, K.EnterPin, K.EnterCan, K.Auth, K.EnterNewPin, K.ChangePin]
    case AcceptAuthReqHandler => [K.EnterPin, K.EnterCan, K.EnterPuk, K.Auth]
    case GetCertificateHandler => [K.Certificate]
    case CancelFlowHandler => [K.Auth, K.ChangePin]
    case SetAccessRightsHandler => [K.AccessRights]
    case SetNewPinHandler => [K.ChangePin]
  }

  /**
   * The messages a handler's body can be applied to.  The reader and
   * bad-state handlers read a field that only their own kind carries and
   * have no branch for any other kind; every other body is total.
   */
  predicate Admits(h: Handler, m: Message) {
    && (h.ReaderHandler? ==> m.Reader?)
    && (h.BadStateHandler? ==> m.BadState?)
  }

  /** The handlers whose body is a `switch` ending in the 'Unknown message type' default. */
  predicate HasDefaultBranch(h: Handler) {
    || h.RunAuthHandler? || h.ChangePinHandler? || h.EnterPukHandler? || h.EnterCanHandler?
    || h.EnterPinHandler? || h.AcceptAuthReqHandler? || h.CancelFlowHandler?
    || h.SetAccessRightsHandler?
  }

  // ---------------------------------------------------------------------------
  // Side-channel handlers

  /** A card was inserted: tell `handleCardRequest`, never settle. */
  function InsertCardHandle(cbs: Callbacks, m: Message): (s: Step)
    ensures s.outcome == Pending
    ensures s.events == (if HandleCardRequest in cbs then [CardRequested] else [])
  {
    Step(Invoke(cbs, CardRequested), Pending)
  }

  /** The reader state changed: tell `handleCardInfo` the card, never settle. */
  function ReaderHandle(cbs: Callbacks, m: Message): (s: Step)
    requires m.Reader?
    ensures s.outcome == Pending
    ensures s.events == (if HandleCardInfo in cbs then [CardInfo(m.card)] else [])
  {
    Step(Invoke(cbs, CardInfo(m.card)), Pending)
  }

  /** The subsystem is out of step: reject with its error; no callback. */
  function BadStateHandle(m: Message): (s: Step)
    requires m.BadState?
    ensures s.events == [] && s.outcome == Reject(BadStateError(m.error))
  {
    Step([], Reject(BadStateError(m.error)))
  }

  // ---------------------------------------------------------------------------
  // Command handlers

  /** The get-info and get-certificate handler: whatever arrives resolves the request. */
  function ResolveHandle(m: Message): (s: Step)
    ensures s.events == [] && s.outcome == Resolve(m)
  {
    Step([], Resolve(m))
  }

  function RunAuthHandle(m: Message): (s: Step)
    ensures s.events == []
    ensures s.outcome.Resolve? <==> m.AccessRights?
    ensures s.outcome.Resolve? ==> s.outcome.message == m
    ensures s.outcome.Pending? <==> m.Auth? && !HasFailureMessage(m)
    ensures HasFailureMessage(m) ==> s.outcome == Reject(AuthRejected(m.result.value))
    ensures s.outcome == Reject(UnknownMessageType) <==> m.Kind() !in CanHandle(RunAuthHandler)
  {
    match m
    case Auth(_, result) =>
      if HasFailureMessage(m) then Step([], Reject(AuthRejected(result.value))) else Step([], Pending)
    case AccessRights => Step([], Resolve(m))
    case _ => Step([], Reject(UnknownMessageType))
  }

  function ChangePinHandle(cbs: Callbacks, m: Message): (s: Step)
    ensures IsCredentialRequest(m) ==> s == RequestCredential(cbs, m)
    ensures m.ChangePin? ==> s == CancelOnFailedChange(cbs, m)
    ensures s.outcome == Reject(UnknownMessageType) <==> m.Kind() !in CanHandle(ChangePinHandler)
    ensures m.Kind() !in CanHandle(ChangePinHandler) ==> s.events == []
  {
    match m
    case EnterPin(_) => RequestCredential(cbs, m)
    case EnterPuk(_) => RequestCredential(cbs, m)
    case EnterCan(_) => RequestCredential(cbs, m)
    case ChangePin(_) => CancelOnFailedChange(cbs, m)
    case _ => Step([], Reject(UnknownMessageType))
  }

  /** After a PUK was sent, an `auth` or a failed `changePin` means the card is blocked. */
  function EnterPukHandle(cbs: Callbacks, m: Message): (s: Step)
    ensures m.Auth? ==> s.events == [] && s.outcome == Reject(CardIsBlocked)
    ensures m.ChangePin? ==> s.events == []
    ensures m.ChangePin? ==> (s.outcome == Reject(CardIsBlocked) <==> m.success == Some(false))
    ensures m.ChangePin? ==> (s.outcome == Pending <==> m.success != Some(false))
    ensures m.EnterPin? || m.EnterPuk? ==> s == RequestCredential(cbs, m)
    ensures s.outcome == Reject(UnknownMessageType) <==> m.Kind() !in CanHandle(EnterPukHandler)
    ensures m.Kind() !in CanHandle(EnterPukHandler) ==> s.events == []
  {
    match m
    case Auth(_, _) => Step([], Reject(CardIsBlocked))
    case ChangePin(success) =>
      if success == Some(false) then Step([], Reject(CardIsBlocked)) else Step([], Pending)
    case EnterPin(_) => RequestCredential(cbs, m)
    case EnterPuk(_) => RequestCredential(cbs, m)
    case _ => Step([], Reject(UnknownMessageType))
  }

  function EnterCanHandle(cbs: Callbacks, m: Message): (s: Step)
    ensures m.ChangePin? ==> s == CancelOnFailedChange(cbs, m)
    ensures m.Auth? ==> s == ReportAuth(cbs, m)
    ensures m.EnterPin? || m.EnterCan? ==> s == RequestCredential(cbs, m)
    ensures s.outcome == Reject(UnknownMessageType) <==> m.Kind() !in CanHandle(EnterCanHandler)
    ensures m.Kind() !in CanHandle(EnterCanHandler) ==> s.events == []
  {
    match m
    case ChangePin(_) => CancelOnFailedChange(cbs, m)
    case Auth(_, _) => ReportAuth(cbs, m)
    case EnterPin(_) => RequestCredential(cbs, m)
    case EnterCan(_) => RequestCredential(cbs, m)
    case _ => Step([], Reject(UnknownMessageType))
  }

  function EnterPinHandle(cbs: Callbacks, m: Message): (s: Step)
    ensures m.ChangePin? ==> s == CancelOnFailedChange(cbs, m)
    ensures m.EnterNewPin? ==> s == Step(Invoke(cbs, NewPinRequested), Resolve(m))
    ensures m.Auth? ==> s == ReportAuth(cbs, m)
    ensures IsCredentialRequest(m) ==> s == RequestCredential(cbs, m)
    ensures s.outcome == Reject(UnknownMessageType) <==> m.Kind() !in CanHandle(EnterPinHandler)
    ensures m.Kind() !in CanHandle(EnterPinHandler) ==> s.events == []
  {
    match m
    case ChangePin(_) => CancelOnFailedChange(cbs, m)
    case EnterNewPin => Step(Invoke(cbs, NewPinRequested), Resolve(m))
    case Auth(_, _) => ReportAuth(cbs, m)
    case EnterPin(_) => RequestCredential(cbs, m)
    case EnterPuk(_) => RequestCredential(cbs, m)
    case EnterCan(_) => RequestCredential(cbs, m)
    case _ => Step([], Reject(UnknownMessageType))
  }

  /** Accepting the request ends with every `auth` resolved, failed or not. */
  function AcceptAuthReqHandle(cbs: Callbacks, m: Message): (s: Step)
    ensures IsCredentialRequest(m) ==> s == RequestCredential(cbs, m)
    ensures m.Auth? ==> s == ReportAuthFailure(cbs, m)
    ensures s.outcome == Reject(UnknownMessageType) <==> m.Kind() !in CanHandle(AcceptAuthReqHandler)
    ensures m.Kind() !in CanHandle(AcceptAuthReqHandler) ==> s.events == []
  {
    match m
    case EnterPin(_) => RequestCredential(cbs, m)
    case EnterPuk(_) => RequestCredential(cbs, m)
    case EnterCan(_) => RequestCredential(cbs, m)
    case Auth(_, _) => ReportAuthFailure(cbs, m)
    case _ => Step([], Reject(UnknownMessageType))
  }

  /** After a cancel, `auth` and a failed `changePin` end the flow and resolve; they are not failures. */
  function CancelFlowHandle(cbs: Callbacks, m: Message): (s: Step)
    ensures m.Auth? ==> s == ReportAuthFailure(cbs, m)
    ensures m.ChangePin? ==> s == CancelOnFailedChange(cbs, m)
    ensures s.outcome == Reject(UnknownMessageType) <==> m.Kind() !in CanHandle(CancelFlowHandler)
    ensures m.Kind() !in CanHandle(CancelFlowHandler) ==> s.events == []
  {
    match m
    case Auth(_, _) => ReportAuthFailure(cbs, m)
    case ChangePin(_) => CancelOnFailedChange(cbs, m)
    case _ => Step([], Reject(UnknownMessageType))
  }

  function SetAccessRightsHandle(m: Message): (s: Step)
    ensures s.events == []
    ensures m.AccessRights? ==> s.outcome == Resolve(m)
    ensures s.outcome == Reject(UnknownMessageType) <==> m.Kind() !in CanHandle(SetAccessRightsHandler)
  {
    match m
    case AccessRights => Step([], Resolve(m))
    case _ => Step([], Reject(UnknownMessageType))
  }

  /**
   * The handler has no `switch` and only `resolve` at hand: it reads
   * `message.success`, which is `undefined` on any other kind of message.
   */
  function SetNewPinHandle(cbs: Callbacks, m: Message): (s: Step)
    ensures !s.outcome.Reject?
    ensures m.ChangePin? && m.success == Some(true) ==> s == Step(Invoke(cbs, ChangePinSucceeded), Resolve(m))
    ensures m.ChangePin? && m.success == Some(false) ==> s == Step(Invoke(cbs, ChangePinCancelled), Resolve(m))
    ensures s.outcome.Pending? <==> !(m.ChangePin? && m.success.Some?)
    ensures s.outcome.Pending? ==> s.events == []
  {
    var success := if m.ChangePin? then m.success else None;
    match success
    case Some(true) => Step(Invoke(cbs, ChangePinSucceeded), Resolve(m))
    case Some(false) => Step(Invoke(cbs, ChangePinCancelled), Resolve(m))
    case None => Step([], Pending)
  }

  /**
   * `handler.handle(message, eventHandlers, {resolve, reject})`.  Every
   * handler but the caller-supplied one invokes at most one callback, only
   * callbacks that are present, and never takes the 'Unknown message type'
   * branch for a kind in its own `canHandle` list.
   */
  function Handle(h: Handler, cbs: Callbacks, m: Message): (s: Step)
    requires Admits(h, m)
    ensures !h.InitSdkHandler? ==> |s.events| <= 1
    ensures !h.InitSdkHandler? ==> forall e :: e in s.events ==> e.Callback() in cbs
    ensures !h.InitSdkHandler? && m.Kind() in CanHandle(h) ==> s.outcome != Reject(UnknownMessageType)
    ensures !HasDefaultBranch(h) && !h.InitSdkHandler? ==> s.outcome != Reject(UnknownMessageType)
  {
    match h
    case InsertCardHandler => InsertCardHandle(cbs, m)
    case ReaderHandler => ReaderHandle(cbs, m)
    case BadStateHandler => BadStateHandle(m)
    case InitSdkHandler(callback) => callback(cbs, m)
    case GetInfoHandler => ResolveHandle(m)
    case RunAuthHandler => RunAuthHandle(m)
    case ChangePinHandler => ChangePinHandle(cbs, m)
    case EnterPukHandler => EnterPukHandle(cbs, m)
    case EnterCanHandler => EnterCanHandle(cbs, m)
    case EnterPinHandler => EnterPinHandle(cbs, m)
    case AcceptAuthReqHandler => AcceptAuthReqHandle(cbs, m)
    case GetCertificateHandler => ResolveHandle(m)
    case CancelFlowHandler => CancelFlowHandle(cbs, m)
    case SetAccessRightsHandler => SetAccessRightsHandle(m)
    case SetNewPinHandler => SetNewPinHandle(cbs, m)
  }

  // ---------------------------------------------------------------------------
  // Command constructors

  /**
   * The `messages` object: each status string is the configured one when the
   * configuration supplies it (even an empty one, since `??` keeps it) and
   * the fixed default otherwise.
   */
  function StatusMessages(config: Option<C.ScannerConfig>): (r: C.SessionMessages)
    ensures config.Some? && config.value.sessionStarted.Some? ==> r.sessionStarted == config.value.sessionStarted.value
    ensures config.Some? && config.value.sessionFailed.Some? ==> r.sessionFailed == config.value.sessionFailed.value
    ensures config.Some? && config.value.sessionSucceeded.Some? ==> r.sessionSucceeded == config.value.sessionSucceeded.value
    ensures config.Some? && config.value.sessionInProgress.Some? ==> r.sessionInProgress == config.value.sessionInProgress.value
    ensures config.None? || config.value.sessionStarted.None? ==> r.sessionStarted == C.DefaultSessionStarted
    ensures config.None? || config.value.sessionFailed.None? ==> r.sessionFailed == C.DefaultSessionFailed
    ensures config.None? || config.value.sessionSucceeded.None? ==> r.sessionSucceeded == C.DefaultSessionSucceeded
    ensures config.None? || config.value.sessionInProgress.None? ==> r.sessionInProgress == C.DefaultSessionInProgress
  {
    var c := config.GetOr(C.ScannerConfig(None, None, None, None));
    C.SessionMessages(
      c.sessionStarted.GetOr(C.DefaultSessionStarted),
      c.sessionFailed.GetOr(C.DefaultSessionFailed),
      c.sessionSucceeded.GetOr(C.DefaultSessionSucceeded),
      c.sessionInProgress.GetOr(C.DefaultSessionInProgress))
  }

  function InitSdkCmd(callback: (Callbacks, Message) -> Step): (p: CommandPair)
    ensures p.command == C.Init
    ensures p.handler.InitSdkHandler? && p.handler.callback == callback
    ensures CanHandle(p.handler) == [K.Init]
  {
    CommandPair(C.Init, InitSdkHandler(callback))
  }

  function GetInfoCmd(): (p: CommandPair)
    ensures p.command == C.GetInfo && p.handler.GetInfoHandler?
    ensures CanHandle(p.handler) == [K.Info]
  {
    CommandPair(C.GetInfo, GetInfoHandler)
  }

  function RunAuthCmd(tcTokenURL: string, config: Option<C.ScannerConfig>): (p: CommandPair)
    ensures p.command.RunAuth? && p.command.tcTokenURL == tcTokenURL
    ensures p.command.handleInterrupt
    ensures p.command.messages == StatusMessages(config)
    ensures p.handler.RunAuthHandler?
    ensures CanHandle(p.handler) == [K.AccessRights, K.Auth]
  {
    CommandPair(C.RunAuth(tcTokenURL, true, StatusMessages(config)), RunAuthHandler)
  }

  function ChangePinCmd(config: Option<C.ScannerConfig>): (p: CommandPair)
    ensures p.command.RunChangePin?
    ensures p.command.handleInterrupt
    ensures p.command.messages == StatusMessages(config)
    ensures p.handler.ChangePinHandler?
    ensures CanHandle(p.handler) == [K.EnterPin, K.EnterPuk, K.EnterCan, K.ChangePin]
  {
    CommandPair(C.RunChangePin(true, StatusMessages(config)), ChangePinHandler)
  }

  function EnterPukCmd(puk: string): (p: CommandPair)
    ensures p.command.SetPuk? && p.command.value == puk
    ensures p.handler.EnterPukHandler?
    ensures CanHandle(p.handler) == [K.EnterPin, K.EnterPuk, K.ChangePin, K.Auth]
  {
    CommandPair(C.SetPuk(puk), EnterPukHandler)
  }

  function EnterCanCmd(can: string): (p: CommandPair)
    ensures p.command.SetCan? && p.command.value == can
    ensures p.handler.EnterCanHandler?
    ensures CanHandle(p.handler) == [K.EnterPin, K.EnterCan, K.ChangePin, K.Auth]
  {
    CommandPair(C.SetCan(can), EnterCanHandler)
  }

  function EnterPinCmd(pin: string): (p: CommandPair)
    ensures p.command.SetPin? && p.command.value == pin
    ensures p.handler.EnterPinHandler?
    ensures CanHandle(p.handler) == [K.EnterPuk, K.EnterPin, K.EnterCan, K.Auth, K.EnterNewPin, K.ChangePin]
  {
    CommandPair(C.SetPin(pin), EnterPinHandler)
  }

  function AcceptAuthReqCmd(): (p: CommandPair)
    ensures p.command == C.Accept && p.handler.AcceptAuthReqHandler?
    ensures CanHandle(p.handler) == [K.EnterPin, K.EnterCan, K.EnterPuk, K.Auth]
  {
    CommandPair(C.Accept, AcceptAuthReqHandler)
  }

  function GetCertificate(): (p: CommandPair)
    ensures p.command == C.GetCertificate && p.handler.GetCertificateHandler?
    ensures CanHandle(p.handler) == [K.Certificate]
  {
    CommandPair(C.GetCertificate, GetCertificateHandler)
  }

  function CancelFlow(): (p: CommandPair)
    ensures p.command == C.Cancel && p.handler.CancelFlowHandler?
    ensures CanHandle(p.handler) == [K.Auth, K.ChangePin]
  {
    CommandPair(C.Cancel, CancelFlowHandler)
  }

  function SetAccessRights(optionalFields: seq<C.AccessRightsField>): (p: CommandPair)
    ensures p.command.SetAccessRights? && p.command.chat == optionalFields
    ensures p.handler.SetAccessRightsHandler?
    ensures CanHandle(p.handler) == [K.AccessRights]
  {
    CommandPair(C.SetAccessRights(optionalFields), SetAccessRightsHandler)
  }

  function SetNewPin(pin: string): (p: CommandPair)
    ensures p.command.SetNewPin? && p.command.value == pin
    ensures p.handler.SetNewPinHandler?
    ensures CanHandle(p.handler) == [K.ChangePin]
  {
    CommandPair(C.SetNewPin(pin), SetNewPinHandler)
  }
}
