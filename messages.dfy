/** The `Messages` enumeration: the discriminant `msg` of every inbound message. */
module MessageKinds {

  datatype MessageKind =
    | InsertCard | Reader | BadState | Init | Info | AccessRights | Auth
    | ChangePin | EnterPin | EnterPuk | EnterCan | EnterNewPin | Certificate
}

/**
 * The inbound messages, reduced to the fields that the command handlers read:
 * `msg` (the constructor), `card`, `reader.card`, `error`, `url`,
 * `result.message` and `success`.  Every other payload field is carried by the
 * SDK but never inspected, so it is left out.
 */
module MessageTypes {
  import opened Wrappers
  import K = MessageKinds

  /** The card state the SDK reports; the handlers only pass it on. */
  datatype Card = Card(snapshot: string)

  /** The `reader` object of the credential-request messages. */
  datatype CardReader = CardReader(card: Card)

  /** The `result` object of an `auth` message; only `message` is ever read. */
  datatype AuthResult = AuthResult(message: Option<string>)

  datatype Message =
    | InsertCard
    | Reader(card: Card)
    | BadState(error: string)
    | Init
    | Info
    | AccessRights
    | Auth(url: Option<string>, result: Option<AuthResult>)
    | ChangePin(success: Option<bool>)
    | EnterPin(reader: CardReader)
    | EnterPuk(reader: CardReader)
    | EnterCan(reader: CardReader)
    | EnterNewPin
    | Certificate
  {
    /** The `msg` discriminant. */
    function Kind(): K.MessageKind {
      match this
      case InsertCard => K.InsertCard
      case Reader(_) => K.Reader
      case BadState(_) => K.BadState
      case Init => K.Init
      case Info => K.Info
      case AccessRights => K.AccessRights
      case Auth(_, _) => K.Auth
      case ChangePin(_) => K.ChangePin
      case EnterPin(_) => K.EnterPin
      case EnterPuk(_) => K.EnterPuk
      case EnterCan(_) => K.EnterCan
      case EnterNewPin => K.EnterNewPin
      case Certificate => K.Certificate
    }
  }

  /** A message of every kind exists: the catalog has no empty kind. */
  function SampleOf(k: K.MessageKind): (m: Message)
    ensures m.Kind() == k
  {
    match k
    case InsertCard => InsertCard
    case Reader => Reader(Card(""))
    case BadState => BadState("")
    case Init => Init
    case Info => Info
    case AccessRights => AccessRights
    case Auth => Auth(None, None)
    case ChangePin => ChangePin(None)
    case EnterPin => EnterPin(CardReader(Card("")))
    case EnterPuk => EnterPuk(CardReader(Card("")))
    case EnterCan => EnterCan(CardReader(Card("")))
    case EnterNewPin => EnterNewPin
    case Certificate => Certificate
  }

  /**
   * `message.result?.message` is truthy: an `auth` message whose result is
   * present and carries a non-empty message string.
   */
  predicate HasFailureMessage(m: Message) {
    m.Auth? && m.result.Some? && m.result.value.message.Some? && m.result.value.message.value != ""
  }

  /** The failure text of an `auth` message, once it is known to be truthy. */
  function FailureMessage(m: Message): (s: string)
    requires HasFailureMessage(m)
    ensures s != ""
  {
    m.result.value.message.value
  }
}
