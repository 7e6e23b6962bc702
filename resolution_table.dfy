/**
 * The resolution rules that several command handlers share, each stated once,
 * independently of any handler.  The handlers in `Commands` are proved to
 * follow them, message kind by message kind.
 */
module ResolutionTable {
  import opened Wrappers
  import opened MessageTypes
  import opened EventCallbacks
  import opened Settlement

  /** `enterPin`, `enterPuk` and `enterCan`: the subsystem asks for a credential. */
  predicate IsCredentialRequest(m: Message) {
    m.EnterPin? || m.EnterPuk? || m.EnterCan?
  }

  /** The request callback that matches a credential request, given the reader's card. */
  function CredentialEvent(m: Message): (e: Event)
    requires IsCredentialRequest(m)
    ensures e.PinRequested? <==> m.EnterPin?
    ensures e.PukRequested? <==> m.EnterPuk?
    ensures e.CanRequested? <==> m.EnterCan?
    ensures (e.PinRequested? || e.PukRequested? || e.CanRequested?) && e.card == m.reader.card
  {
    if m.EnterPin? then PinRequested(m.reader.card)
    else if m.EnterPuk? then PukRequested(m.reader.card)
    else CanRequested(m.reader.card)
  }

  /** A credential request: invoke the matching request callback, then resolve with the message. */
  function RequestCredential(cbs: Callbacks, m: Message): (s: Step)
    requires IsCredentialRequest(m)
    ensures s.outcome == Resolve(m)
    ensures forall e :: e in s.events ==> e == CredentialEvent(m)
    ensures |s.events| == (if CredentialEvent(m).Callback() in cbs then 1 else 0)
  {
    Step(Invoke(cbs, CredentialEvent(m)), Resolve(m))
  }

  /**
   * A `changePin` message seen while a PIN operation is outstanding: an
   * explicit `success` of false means the change was cancelled, so invoke the
   * cancel callback and resolve; anything else leaves the operation waiting.
   */
  function CancelOnFailedChange(cbs: Callbacks, m: Message): (s: Step)
    requires m.ChangePin?
    ensures m.success == Some(false) ==> s.outcome == Resolve(m)
    ensures m.success == Some(false) ==> s.events == (if HandleChangePinCancel in cbs then [ChangePinCancelled] else [])
    ensures m.success != Some(false) ==> s.outcome == Pending && s.events == []
  {
    if m.success == Some(false) then Step(Invoke(cbs, ChangePinCancelled), Resolve(m))
    else Step([], Pending)
  }

  /**
   * An `auth` message as information: report a failure (with its text) or a
   * success through the matching callback, and resolve in both cases.
   */
  function ReportAuth(cbs: Callbacks, m: Message): (s: Step)
    requires m.Auth?
    ensures s.outcome == Resolve(m)
    ensures HasFailureMessage(m) ==>
      s.events == (if HandleAuthFailed in cbs then [AuthFailed(m.url, FailureMessage(m))] else [])
    ensures !HasFailureMessage(m) ==>
      s.events == (if HandleAuthSuccess in cbs then [AuthSucceeded(m.url)] else [])
  {
    var e := if HasFailureMessage(m) then AuthFailed(m.url, FailureMessage(m)) else AuthSucceeded(m.url);
    Step(Invoke(cbs, e), Resolve(m))
  }

  /**
   * An `auth` message that ends a flow: report a failure through its callback,
   * report nothing otherwise, and resolve in both cases.
   */
  function ReportAuthFailure(cbs: Callbacks, m: Message): (s: Step)
    requires m.Auth?
    ensures s.outcome == Resolve(m)
    ensures forall e :: e in s.events ==> e.AuthFailed?
    ensures HasFailureMessage(m) ==>
      s.events == (if HandleAuthFailed in cbs then [AuthFailed(m.url, FailureMessage(m))] else [])
    ensures !HasFailureMessage(m) ==> s.events == []
  {
    if HasFailureMessage(m) then Step(Invoke(cbs, AuthFailed(m.url, FailureMessage(m))), Resolve(m))
    else Step([], Resolve(m))
  }
}
