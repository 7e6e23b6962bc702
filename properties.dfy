/** Properties that relate several handlers, or a handler to its command constructor. */
module CommandProperties {
  import opened Wrappers
  import opened MessageTypes
  import K = MessageKinds
  import opened EventCallbacks
  import opened Settlement
  import opened ResolutionTable
  import opened Commands

  /**
   * `changePin` under the change-PIN, CAN, PIN and cancel handlers follows
   * one rule: `success === false` invokes the cancel callback and resolves,
   * any other value leaves the operation waiting.
   */
  lemma ChangePinCancelRule(h: Handler, cbs: Callbacks, m: Message)
    requires h.ChangePinHandler? || h.EnterCanHandler? || h.EnterPinHandler? || h.CancelFlowHandler?
    requires m.ChangePin?
    ensures Handle(h, cbs, m) == CancelOnFailedChange(cbs, m)
  {
  }

  /**
   * The set-new-PIN handler agrees with that rule except on `success === true`,
   * where it reports the successful change and resolves instead of waiting.
   */
  lemma SetNewPinExtendsCancelRule(cbs: Callbacks, m: Message)
    requires m.ChangePin?
    ensures m.success != Some(true) ==> Handle(SetNewPinHandler, cbs, m) == CancelOnFailedChange(cbs, m)
    ensures m.success == Some(true) ==> Handle(SetNewPinHandler, cbs, m) == Step(Invoke(cbs, ChangePinSucceeded), Resolve(m))
    ensures m.success == Some(true) ==> CancelOnFailedChange(cbs, m).outcome == Pending
  {
  }

  /**
   * Every handler that lists a credential request in `canHandle` answers it
   * the same way: the matching request callback with the reader's card, then
   * resolve.
   */
  lemma CredentialRequestRule(h: Handler, cbs: Callbacks, m: Message)
    requires !h.InitSdkHandler? && IsCredentialRequest(m) && m.Kind() in CanHandle(h)
    ensures Handle(h, cbs, m) == RequestCredential(cbs, m)
  {
  }

  /**
   * Of the handlers that accept `auth`, only the remote-authentication one
   * (when the result carries a message) and the PUK one (always) reject it;
   * every other one resolves with the message.
   */
  lemma AuthRejection(h: Handler, cbs: Callbacks, m: Message)
    requires !h.InitSdkHandler? && m.Auth? && K.Auth in CanHandle(h)
    ensures Handle(h, cbs, m).outcome.Reject? <==> h.EnterPukHandler? || (h.RunAuthHandler? && HasFailureMessage(m))
    ensures !h.EnterPukHandler? && !h.RunAuthHandler? ==> Handle(h, cbs, m).outcome == Resolve(m)
    ensures h.RunAuthHandler? && !HasFailureMessage(m) ==> Handle(h, cbs, m).outcome == Pending
  {
  }

  /**
   * The CAN and PIN handlers report every `auth`: the failure callback with
   * the URL and the failure text exactly when the result carries a message,
   * the success callback with the URL otherwise.
   */
  lemma CredentialEntryReportsAuth(h: Handler, cbs: Callbacks, m: Message)
    requires h.EnterCanHandler? || h.EnterPinHandler?
    requires m.Auth? && HandleAuthFailed in cbs && HandleAuthSuccess in cbs
    ensures Handle(h, cbs, m).outcome == Resolve(m)
    ensures HasFailureMessage(m) ==> Handle(h, cbs, m).events == [AuthFailed(m.url, FailureMessage(m))]
    ensures !HasFailureMessage(m) ==> Handle(h, cbs, m).events == [AuthSucceeded(m.url)]
  {
  }

  /**
   * The accept and cancel handlers take `handleAuthSuccess` from the
   * callbacks but never call it: an `auth` message invokes at most the
   * failure callback, and only when the result carries a message.
   */
  lemma EndOfFlowReportsOnlyFailure(h: Handler, cbs: Callbacks, m: Message)
    requires h.AcceptAuthReqHandler? || h.CancelFlowHandler?
    requires m.Auth?
    ensures Handle(h, cbs, m).outcome == Resolve(m)
    ensures forall e :: e in Handle(h, cbs, m).events ==> e == AuthFailed(m.url, FailureMessage(m))
    ensures HandleAuthFailed in cbs && HasFailureMessage(m) ==> Handle(h, cbs, m).events != []
    ensures !HasFailureMessage(m) ==> Handle(h, cbs, m).events == []
  {
  }

  /**
   * Absent callbacks are no-ops: a handler's outcome does not depend on which
   * callbacks are present, and its trace is the all-present trace with the
   * absent callbacks' invocations dropped.
   */
  lemma AbsentCallbacksAreNoOps(h: Handler, cbs: Callbacks, m: Message)
    requires !h.InitSdkHandler? && Admits(h, m)
    ensures Handle(h, cbs, m).outcome == Handle(h, AllCallbacks, m).outcome
    ensures Handle(h, cbs, m).events == Present(cbs, Handle(h, AllCallbacks, m).events)
  {
    var all := Handle(h, AllCallbacks, m);
    if all.events == [] {
      assert Handle(h, cbs, m).events == [];
    } else {
      var e := all.events[0];
      assert Handle(h, cbs, m).events == Invoke(cbs, e);
      PresentInvoke(cbs, e);
    }
  }

  /**
   * For a handler written as a `switch` with a default branch, `canHandle` is
   * exactly the set of kinds the `switch` answers: a kind is listed if and
   * only if no message of that kind reaches 'Unknown message type'.
   */
  lemma CanHandleIsExact(h: Handler, k: K.MessageKind)
    requires HasDefaultBranch(h)
    ensures k in CanHandle(h) <==>
      forall cbs: Callbacks, m: Message | m.Kind() == k :: Handle(h, cbs, m).outcome != Reject(UnknownMessageType)
  {
    if k !in CanHandle(h) {
      var m := SampleOf(k);
      assert Handle(h, {}, m).outcome == Reject(UnknownMessageType);
    }
  }

  // ---------------------------------------------------------------------------
  // Scenarios: one command constructor, then one inbound message

  /** A PUK is sent and an `auth` with an error comes back: the card is blocked. */
  lemma PukThenAuthErrorBlocksCard(cbs: Callbacks)
    ensures Handle(EnterPukCmd("123456").handler, cbs, Auth(None, Some(AuthResult(Some("error")))))
      == Step([], Reject(CardIsBlocked))
  {
  }

  /** A PIN is sent and `enterNewPin` comes back: the new-PIN callback runs and the operation resolves. */
  lemma PinThenEnterNewPinResolves()
    ensures Handle(EnterPinCmd("1234").handler, AllCallbacks, EnterNewPin)
      == Step([NewPinRequested], Resolve(EnterNewPin))
  {
  }

  /** A cancel is sent and a failed `changePin` comes back: the cancel callback runs and it resolves. */
  lemma CancelThenFailedChangeResolves()
    ensures Handle(CancelFlow().handler, AllCallbacks, ChangePin(Some(false)))
      == Step([ChangePinCancelled], Resolve(ChangePin(Some(false))))
  {
  }

  /** Remote authentication is started and an `auth` with an error comes back: it rejects with that result. */
  lemma RunAuthThenAuthErrorRejects(url: string, cbs: Callbacks)
    ensures Handle(RunAuthCmd(url, None).handler, cbs, Auth(None, Some(AuthResult(Some("err")))))
      == Step([], Reject(AuthRejected(AuthResult(Some("err")))))
  {
  }

  /** A new PIN is set: `success: true` reports success and resolves, an absent `success` waits. */
  lemma SetNewPinOutcomes()
    ensures Handle(SetNewPin("5678").handler, AllCallbacks, ChangePin(Some(true)))
      == Step([ChangePinSucceeded], Resolve(ChangePin(Some(true))))
    ensures Handle(SetNewPin("5678").handler, AllCallbacks, ChangePin(None)) == Step([], Pending)
  {
  }
}
