/**
 * The event callbacks a caller may supply.  Every one of them is optional; a
 * handler invokes one as `cb && cb(args)`, so an absent callback is a no-op.
 * The model records an invocation as an `Event` in the handler's trace
 * instead of performing it.
 */
module EventCallbacks {
  import opened Wrappers
  import opened MessageTypes

  datatype CallbackName =
    | HandleCardRequest | HandleCardInfo | HandlePinRequest | HandlePukRequest
    | HandleCanRequest | HandleEnterNewPin | HandleChangePinCancel
    | HandleChangePinSuccess | HandleAuthFailed | HandleAuthSuccess

  /** The callbacks that are present in the caller's `eventHandlers` object. */
  type Callbacks = set<CallbackName>

  const AllCallbacks: Callbacks := {
    HandleCardRequest, HandleCardInfo, HandlePinRequest, HandlePukRequest,
    HandleCanRequest, HandleEnterNewPin, HandleChangePinCancel,
    HandleChangePinSuccess, HandleAuthFailed, HandleAuthSuccess
  }

  /** One invocation of a callback, with the arguments it is given. */
  datatype Event =
    | CardRequested
    | CardInfo(card: Card)
    | PinRequested(card: Card)
    | PukRequested(card: Card)
    | CanRequested(card: Card)
    | NewPinRequested
    | ChangePinCancelled
    | ChangePinSucceeded
    | AuthFailed(url: Option<string>, message: string)
    | AuthSucceeded(url: Option<string>)
  {
    /** The callback this event invokes. */
    function Callback(): CallbackName {
      match this
      case CardRequested => HandleCardRequest
      case CardInfo(_) => HandleCardInfo
      case PinRequested(_) => HandlePinRequest
      case PukRequested(_) => HandlePukRequest
      case CanRequested(_) => HandleCanRequest
      case NewPinRequested => HandleEnterNewPin
      case ChangePinCancelled => HandleChangePinCancel
      case ChangePinSucceeded => HandleChangePinSuccess
      case AuthFailed(_, _) => HandleAuthFailed
      case AuthSucceeded(_) => HandleAuthSuccess
    }
  }

  /** The guarded call `cb && cb(args)`: the event happens only if its callback is present. */
  function Invoke(cbs: Callbacks, e: Event): seq<Event> {
    if e.Callback() in cbs then [e] else []
  }

  /**
   * The trace that remains of `evs` when only the callbacks in `cbs` are
   * present: every invocation of an absent callback is dropped, the rest keep
   * their order.
   */
  function Present(cbs: Callbacks, evs: seq<Event>): (r: seq<Event>)
    ensures |r| <= |evs|
    ensures forall e :: e in r <==> e in evs && e.Callback() in cbs
    decreases |evs|
  {
    if evs == [] then [] else Invoke(cbs, evs[0]) + Present(cbs, evs[1..])
  }

  /** With every callback present, nothing is dropped. */
  lemma {:induction false} PresentAll(evs: seq<Event>)
    ensures Present(AllCallbacks, evs) == evs
    decreases |evs|
  {
    if evs != [] {
      var e := evs[0];
      assert e.Callback() in AllCallbacks by {
        match e
        case CardRequested =>
        case CardInfo(_) =>
        case PinRequested(_) =>
        case PukRequested(_) =>
        case CanRequested(_) =>
        case NewPinRequested =>
        case ChangePinCancelled =>
        case ChangePinSucceeded =>
        case AuthFailed(_, _) =>
        case AuthSucceeded(_) =>
      }
      PresentAll(evs[1..]);
      assert evs == [e] + evs[1..];
    }
  }

  /** Dropping absent callbacks keeps the order of the invocations that remain. */
  lemma {:induction false} PresentAppend(cbs: Callbacks, a: seq<Event>, b: seq<Event>)
    ensures Present(cbs, a + b) == Present(cbs, a) + Present(cbs, b)
    decreases |a|
  {
    if a == [] {
      assert a + b == b;
    } else {
      assert (a + b)[0] == a[0] && (a + b)[1..] == a[1..] + b;
      calc {
        Present(cbs, a + b);
        Invoke(cbs, a[0]) + Present(cbs, a[1..] + b);
        { PresentAppend(cbs, a[1..], b); }
        Invoke(cbs, a[0]) + (Present(cbs, a[1..]) + Present(cbs, b));
        Present(cbs, a) + Present(cbs, b);
      }
    }
  }

  /** A single guarded call is the one-event case of `Present`. */
  lemma PresentInvoke(cbs: Callbacks, e: Event)
    ensures Present(cbs, [e]) == Invoke(cbs, e)
  {
    assert [e][1..] == [];
  }
}
