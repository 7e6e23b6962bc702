# Command handler table of react-native-ausweis

This project models, in Dafny, the handler table of the react-native-ausweis
eID bridge, which is `src/commands.ts`. Each command constructor (`initSdkCmd`,
`getInfoCmd`, `runAuthCmd`, `changePinCmd`, `enterPukCmd`, `enterCanCmd`,
`enterPinCmd`, `acceptAuthReqCmd`, `getCertificate`, `cancelFlow`,
`setAccessRights`, `setNewPin`) pairs an outgoing command payload with a
handler for the inbound messages that answer it. It has a `canHandle` list of
message kinds and a `handle` function. Three permanent handlers (`insertCard`,
`reader`, `badState`) serve the side channel.

A call of `handle` is modelled as a pure function
`(Handler, Callbacks, Message) -> Step`:

- `Callbacks` is the set of event callbacks the caller supplied. The guarded
  call `cb && cb(args)` becomes `Invoke`, which records the event only when
  its callback is present.
- `Step` is the sequence of callback events, in the order they are invoked,
  followed by an `Outcome`. The outcome is `Resolve(message)`, `Reject(err)`,
  or `Pending` when `handle` returns without settling. Every handler invokes
  its callbacks before it settles, and one call settles at most once by
  construction.
- `Err` is one of: the embedded `auth` result, `CardError.cardIsBlocked`, a
  bad-state `error`, or `Error('Unknown message type')`.

Modules:

- `Wrappers`: an `Option` type.
- `MessageKinds` and `MessageTypes`: the message catalog, reduced to the
  fields `commands.ts` reads.
- `EventCallbacks`: callback names, events, `Invoke` and `Present`.
- `CommandTypes`: the command payloads, `ScannerConfig` and the default
  status strings.
- `Settlement`: errors, outcomes and steps.
- `ResolutionTable`: the rules several handlers share, each stated once on
  its own.
- `Commands`: the handlers, `CanHandle`, the dispatcher `Handle` and the
  twelve constructors.
- `CommandProperties`: lemmas that span several handlers, plus scenarios
  that pair a constructor with an inbound message.

Three points where the code is narrower than one might expect:

- `initSdkCmd`'s `handle` is the caller's own callback, so the model carries
  it unchanged as `InitSdkHandler(callback)`, and `Handle` applies it.
- `badStateHandler` reads `message.error`, so it applies only to `badState`
  messages (`Admits`). The same holds for `readerHandler` and `message.card`.
- No handler rejects a kind it accepts as unknown. The `changePin` branches
  that see anything other than `success === false` return without settling
  (Pending). `setNewPin` has no `switch`, so any message without a boolean
  `success` leaves it Pending, and it can never reject.

## Model

| member | source | states |
|---|---|---|
| `EventCallbacks.Present` | src/commands.ts:265-268 | the trace seen when only some callbacks are present keeps exactly the events whose callback is present, and is never longer than the full trace |
| `EventCallbacks.PresentAll` | src/commands.ts:265-268 | when every callback is present, nothing is dropped from a trace |
| `EventCallbacks.PresentAppend` | src/commands.ts:265-268 | dropping absent callbacks keeps the order of the remaining invocations: filtering a concatenation is the concatenation of the filtered parts |
| `EventCallbacks.PresentInvoke` | src/commands.ts:265-268 | one guarded call `cb && cb(args)` is the one-event case of dropping absent callbacks |
| `ResolutionTable.CredentialEvent` | src/commands.ts:158-166 | enterPin, enterPuk and enterCan each map to the matching PIN, PUK or CAN request callback, given the reader's card |
| `ResolutionTable.RequestCredential` | src/commands.ts:158-166 | a credential request resolves with the message and invokes at most the matching request callback, exactly once when that callback is present |
| `ResolutionTable.CancelOnFailedChange` | src/commands.ts:167-172 | a changePin with success false resolves and invokes the cancel callback when present; any other success value is pending with no callback |
| `ResolutionTable.ReportAuth` | src/commands.ts:263-270 | an auth resolves; it invokes `handleAuthFailed(url, text)` when the result message is non-empty and `handleAuthSuccess(url)` otherwise, each only when present |
| `ResolutionTable.ReportAuthFailure` | src/commands.ts:395-400 | an auth resolves; it invokes only `handleAuthFailed(url, text)`, and only for a non-empty result message and a present callback |
| `Commands.InsertCardHandle` | src/commands.ts:36-41 | a card insertion never settles and invokes only `handleCardRequest`, and only when it is present |
| `Commands.ReaderHandle` | src/commands.ts:43-48 | a reader message never settles and invokes only `handleCardInfo(card)`, and only when it is present |
| `Commands.BadStateHandle` | src/commands.ts:50-55 | a bad-state message always rejects with its own `error` and invokes no callback |
| `Commands.ResolveHandle` | src/commands.ts:72-73 | the get-info handler, and the identical get-certificate handler at lines 413-414: resolves with the message it is given and invokes no callback |
| `Commands.RunAuthHandle` | src/commands.ts:100-113 | invokes no callback; resolves exactly on accessRights (with that message); stays pending exactly on an auth without a failure message; an auth with a failure message rejects with its result; the unknown-type rejection happens exactly for kinds outside canHandle |
| `Commands.ChangePinHandle` | src/commands.ts:141-175 | credential requests follow the shared request rule; changePin follows the cancel-on-false rule; unknown-type rejection, with no callback, exactly outside canHandle |
| `Commands.EnterPukHandle` | src/commands.ts:193-223 | any auth rejects with cardIsBlocked whatever its payload; changePin rejects with cardIsBlocked exactly when success is false and is pending otherwise; neither invokes a callback; enterPin/enterPuk follow the request rule; unknown-type rejection, with no callback, exactly outside canHandle |
| `Commands.EnterCanHandle` | src/commands.ts:241-280 | auth reports failure or success and resolves; changePin follows the cancel-on-false rule; enterPin/enterCan follow the request rule; unknown-type rejection, with no callback, exactly outside canHandle |
| `Commands.EnterPinHandle` | src/commands.ts:303-352 | as the CAN handler, plus enterPuk follows the request rule and enterNewPin invokes `handleEnterNewPin` and resolves; unknown-type rejection, with no callback, exactly outside canHandle |
| `Commands.AcceptAuthReqHandle` | src/commands.ts:367-403 | credential requests follow the request rule; auth reports only a failure and always resolves; unknown-type rejection, with no callback, exactly outside canHandle |
| `Commands.CancelFlowHandle` | src/commands.ts:426-452 | auth reports only a failure and resolves; changePin follows the cancel-on-false rule; unknown-type rejection, with no callback, exactly outside canHandle |
| `Commands.SetAccessRightsHandle` | src/commands.ts:464-471 | invokes no callback; accessRights resolves with itself; unknown-type rejection exactly outside canHandle |
| `Commands.SetNewPinHandle` | src/commands.ts:483-493 | never rejects; success true invokes the success callback and resolves; success false invokes the cancel callback and resolves; pending, with no callback, exactly when success is not a boolean |
| `Commands.Handle` | src/commands.ts:36-496 | every handler except the caller-supplied init one invokes at most one callback, only present ones, and never reaches the unknown-type branch for a kind in its own canHandle list; handlers with no default branch never reach it at all |
| `Commands.StatusMessages` | src/commands.ts:87-97 | each of the four status strings is the configured one when supplied (an empty string included) and the fixed default otherwise |
| `Commands.InitSdkCmd` | src/commands.ts:57-66 | sends `init`; the handler is the caller's callback itself; canHandle is [init] |
| `Commands.GetInfoCmd` | src/commands.ts:68-76 | sends `getInfo` with the get-info handler; canHandle is [info] |
| `Commands.RunAuthCmd` | src/commands.ts:82-100 | sends runAuth with the URL unchanged, handleInterrupt true and the configured-or-default status strings; canHandle is [accessRights, auth] |
| `Commands.ChangePinCmd` | src/commands.ts:124-146 | sends runChangePin with handleInterrupt true and the configured-or-default status strings; canHandle is [enterPin, enterPuk, enterCan, changePin] |
| `Commands.EnterPukCmd` | src/commands.ts:187-198 | sends setPuk carrying the PUK unchanged as value; canHandle is [enterPin, enterPuk, changePin, auth] |
| `Commands.EnterCanCmd` | src/commands.ts:235-246 | sends setCan carrying the CAN unchanged as value; canHandle is [enterPin, enterCan, changePin, auth] |
| `Commands.EnterPinCmd` | src/commands.ts:297-310 | sends setPin carrying the PIN unchanged as value; canHandle is [enterPuk, enterPin, enterCan, auth, enterNewPin, changePin] |
| `Commands.AcceptAuthReqCmd` | src/commands.ts:362-372 | sends accept; canHandle is [enterPin, enterCan, enterPuk, auth] |
| `Commands.GetCertificate` | src/commands.ts:410-414 | sends getCertificate; canHandle is [certificate] |
| `Commands.CancelFlow` | src/commands.ts:423-426 | sends cancel; canHandle is [auth, changePin] |
| `Commands.SetAccessRights` | src/commands.ts:461-464 | sends setAccessRights carrying optionalFields unchanged as chat; canHandle is [accessRights] |
| `Commands.SetNewPin` | src/commands.ts:480-483 | sends setNewPin carrying the new PIN unchanged as value; canHandle is [changePin] |
| `CommandProperties.ChangePinCancelRule` | src/commands.ts:167-172 | under the change-PIN, CAN, PIN and cancel handlers a changePin follows one rule: false invokes the cancel callback and resolves, anything else is pending |
| `CommandProperties.SetNewPinExtendsCancelRule` | src/commands.ts:486-492 | the set-new-PIN handler agrees with that rule except on success true, where it reports success and resolves instead of waiting |
| `CommandProperties.CredentialRequestRule` | src/commands.ts:158-166 | every handler that lists a credential request invokes the matching request callback with the reader's card, then resolves |
| `CommandProperties.AuthRejection` | src/commands.ts:103-107 | among handlers accepting auth, exactly the PUK handler (always) and the remote-auth handler (on a failure message) reject it; the remote-auth handler leaves an auth without a failure message pending; every other handler resolves with it |
| `CommandProperties.CredentialEntryReportsAuth` | src/commands.ts:263-270 | the CAN and PIN handlers invoke exactly one of `handleAuthFailed(url, text)` (result message non-empty) or `handleAuthSuccess(url)` (otherwise), then resolve |
| `CommandProperties.EndOfFlowReportsOnlyFailure` | src/commands.ts:395-400 | accept and cancel resolve every auth, invoke `handleAuthFailed` only for a non-empty result message and never invoke `handleAuthSuccess` |
| `CommandProperties.AbsentCallbacksAreNoOps` | src/commands.ts:265-268 | the outcome is the same whichever callbacks are present, and the trace is the all-present trace with absent callbacks dropped |
| `CommandProperties.CanHandleIsExact` | src/commands.ts:99-113 | for a switch-based handler a kind is in canHandle if and only if no message of that kind reaches the unknown-type branch |
| `CommandProperties.PukThenAuthErrorBlocksCard` | src/commands.ts:208-209 | a PUK followed by an auth with an error rejects with cardIsBlocked |
| `CommandProperties.PinThenEnterNewPinResolves` | src/commands.ts:329-331 | a PIN followed by enterNewPin invokes `handleEnterNewPin` and resolves with that message |
| `CommandProperties.CancelThenFailedChangeResolves` | src/commands.ts:444-447 | a cancel followed by changePin false invokes the cancel callback and resolves |
| `CommandProperties.RunAuthThenAuthErrorRejects` | src/commands.ts:103-106 | remote auth followed by an auth with an error rejects with that result |
| `CommandProperties.SetNewPinOutcomes` | src/commands.ts:486-492 | set-new-PIN: success true reports success and resolves; an absent success stays pending |

## Left out

- The correlation engine is left out. `commands.ts` only defines the handler table. Sending a command, installing its handler, filtering messages by `canHandle`, settling a promise at most once and deactivating the handler happen elsewhere. `canHandle` is modelled as data.
- The message and command type modules (`commandTypes`, `messageTypes`, `types`) are not part of this model. Messages keep only the fields the handlers read. Card state is an opaque snapshot, and access-right field names are opaque strings.
- The behaviour of `initSdkCmd`'s handler is the caller's callback. The model passes it through unchanged and proves nothing about it.
- What callbacks, `resolve` and `reject` do is recorded as events and outcomes, not performed. Return values of `handle` are not modelled either; for example, the side-channel handlers return the callback's own return value.
- The content of the default status strings is copied as constants. No property depends on it.
- Promises, async scheduling, the React Native bridge and the transport are not modelled.
- JavaScript value details: `null` and `undefined` are both `None`, and `success` is either a boolean or absent.
- `reader` is always present on credential-request messages. So `reader?.card` in `enterPinCmd` means the same as `reader.card` elsewhere, and the TypeError a missing `reader` would raise in the other handlers is not modelled.
- `Commands.ReaderHandle` and `Commands.BadStateHandle` apply only to messages of their own kind, which is what their declared message type allows. On any other kind the code would read an `undefined` field, and that is not modelled.
