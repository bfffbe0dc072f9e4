/**
 * The shapes the protocol engine (the Baileys library) hands to the gateway and the
 * outcomes of its calls. The engine itself is outside the model: every answer it can
 * give becomes a value of one of these types, passed in as a parameter.
 */
module Engine {
  import opened Wrappers

  /** `msg.message.extendedTextMessage` */
  datatype ExtendedText = ExtendedText(text: Option<string>)

  /** `imageMessage`, `videoMessage` and `documentWithCaptionMessage` */
  datatype Captioned = Captioned(caption: Option<string>)

  /** `templateMessage.hydratedTemplate` */
  datatype HydratedTemplate = HydratedTemplate(hydratedContentText: Option<string>)

  /** `templateMessage` */
  datatype Template = Template(hydratedTemplate: Option<HydratedTemplate>)

  /**
   * The payload object of a protocol message: the optional fields the gateway reads, and
   * the payload's own key names in the order the engine delivered them (`Object.keys`).
   */
  datatype MessageContent = MessageContent(
    conversation: Option<string>,
    extendedTextMessage: Option<ExtendedText>,
    imageMessage: Option<Captioned>,
    videoMessage: Option<Captioned>,
    documentWithCaptionMessage: Option<Captioned>,
    templateMessage: Option<Template>,
    keys: seq<string>)

  /** `msg.key` */
  datatype MessageKey = MessageKey(
    remoteJid: Option<string>,
    fromMe: Option<bool>,
    id: string,
    participant: Option<string>)

  /** One entry of a `messages.upsert` batch; `messageTimestamp` is in seconds. */
  datatype WAMessage = WAMessage(key: MessageKey, message: Option<MessageContent>, messageTimestamp: Option<int>)

  datatype Connection = Open | Close | Connecting

  /** A `connection.update` event: `connection`, `qr` and `lastDisconnect.error.output.statusCode`. */
  datatype ConnectionUpdate = ConnectionUpdate(
    connection: Option<Connection>,
    qr: Option<string>,
    disconnectStatusCode: Option<int>)

  /** `DisconnectReason.loggedOut` of the engine. */
  const LOGGED_OUT: int := 401

  /** A live connection: the socket's identity and `sock.user?.id` (present once authenticated). */
  datatype Handle = Handle(socket: nat, user: Option<string>)

  /** An error thrown by the engine, the file system or the database. */
  datatype JsError = JsError(message: string, stack: string)

  /** The first element of `sock.onWhatsApp(jid)`; `exists_` is its `exists` field. */
  datatype NumberInfo = NumberInfo(jid: Option<string>, exists_: Option<bool>)

  datatype LookupOutcome = LookupThrew(failure: JsError) | LookupReturned(info: Option<NumberInfo>)

  /** `sock.sendMessage(...)`: a throw, or a response whose `key.id` may be missing or empty. */
  datatype SendOutcome = SendThrew(failure: JsError) | SendReturned(keyId: Option<string>)

  datatype PairingOutcome = PairingThrew(failure: JsError) | PairingReturned(code: string)

  /** JavaScript truthiness of an optional string: present and not empty. */
  predicate Truthy(s: Option<string>) {
    s.Some? && s.value != ""
  }
}
