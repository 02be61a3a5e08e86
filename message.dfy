/**
 * The message object and the API client, seen only through the members the
 * channel uses: `canSend`, `getPayloadValue`, `to`, `hasToken`, `token`,
 * `exceptionHandler`, `toArray` and the `telegram` client's `setToken`.
 */
module Message {
  import opened Php
  import opened Wrappers
  import opened Recipient

  /** Payload key under which `create` stores the text. */
  const TextKey := "text"

  /** A snapshot of a message: its payload (what `toArray` returns), whether it may be sent,
      its per-message token override and whether an exception handler is attached. */
  datatype MessageView = MessageView(
    payload: map<string, Value>,
    sendable: bool,
    token: Option<string>,
    hasHandler: bool)

  /** The message `TelegramMessage::create(text)` builds from a plain string. */
  function Wrap(text: string): (v: MessageView)
    ensures PayloadValue(v.payload, TextKey) == Str(text)
    ensures PayloadValue(v.payload, ChatIdKey) == Null
    ensures v.sendable <==> text != ""
    ensures v.token == None && !v.hasHandler
  {
    MessageView(map[TextKey := Str(text)], text != "", None, false)
  }

  /** The Telegram API client; its token is shared by every message that uses it. */
  class Client {
    var token: Option<string>

    constructor (token: Option<string>)
      ensures this.token == token
    {
      this.token := token;
    }

    method SetToken(t: string)
      modifies this
      ensures token == Some(t)
    {
      token := Some(t);
    }
  }

  class TelegramMessage {
    var payload: map<string, Value>
    var sendable: bool
    var token: Option<string>
    var hasHandler: bool
    const client: Client

    /** `TelegramMessage::create(text)`, bound to the client the application container provides. */
    constructor Create(text: string, client: Client)
      ensures View() == Wrap(text) && this.client == client
    {
      payload, sendable, token, hasHandler := map[TextKey := Str(text)], text != "", None, false;
      this.client := client;
    }

    /** A message as a notification's `toTelegram` builds it. */
    constructor (v: MessageView, client: Client)
      ensures View() == v && this.client == client
    {
      payload, sendable, token, hasHandler := v.payload, v.sendable, v.token, v.hasHandler;
      this.client := client;
    }

    function View(): MessageView
      reads this
    {
      MessageView(payload, sendable, token, hasHandler)
    }

    predicate CanSend()
      reads this
    {
      sendable
    }

    predicate HasToken()
      reads this
    {
      token.Some?
    }

    function GetPayloadValue(key: string): Value
      reads this
    {
      PayloadValue(payload, key)
    }

    /** The message's `to`: records the recipient under `chat_id`, replacing any earlier one. */
    method To(to: Value)
      modifies this`payload
      ensures payload == old(payload)[ChatIdKey := to]
      ensures GetPayloadValue(ChatIdKey) == to
      ensures forall k :: k != ChatIdKey ==> GetPayloadValue(k) == old(GetPayloadValue(k))
    {
      payload := payload[ChatIdKey := to];
    }
  }
}
