/**
 * `TelegramChannel::send`: turn the notification's output into a message, skip it
 * when it cannot be sent or has no recipient, address it, apply its token
 * override, send it, report a failed send and rethrow, or return the response.
 */
module Channel {
  import opened Php
  import opened Wrappers
  import opened Recipient
  import opened Effects
  import opened Message

  /** What the message's own send hands back: a plain value, or a Guzzle `Response` whose body is JSON text. */
  datatype Response = Raw(value: Value) | GuzzleResponse(body: string)

  /** The abstract outcome of the API call: a response, or an exception. */
  datatype Transport = Delivered(response: Response) | Raised(exception: Exception)

  /** How `send` ends: by returning a value (null included) or by throwing. */
  datatype Completion = Returned(value: Value) | Threw(exception: Exception)

  /** What `toTelegram` returns: a plain string, or a message object. */
  datatype Output = Text(text: string) | Built(message: TelegramMessage)

  /** The return statement under the declared `?array` type: anything other than an array or
      null raises a TypeError. */
  function AsNullableArray(v: Value): (c: Completion)
    ensures c.Returned? <==> v.Null? || v.Arr?
    ensures c.Returned? ==> c.value == v
    ensures c.Threw? ==> c.exception == TypeError
  {
    if v.Null? || v.Arr? then Returned(v) else Threw(TypeError)
  }

  /** The final expression: a Guzzle response's body is JSON-decoded into an associative array
      (`json` is the decoder; None is its JsonException), anything else is returned as it is. */
  function Decode(r: Response, json: string -> Option<Value>): (c: Completion)
    ensures c.Returned? ==> c.value.Null? || c.value.Arr?
    ensures c.Threw? ==> c.exception == JsonException || c.exception == TypeError
    ensures c == Threw(JsonException) <==> r.GuzzleResponse? && json(r.body).None?
    ensures r.Raw? && (r.value.Null? || r.value.Arr?) ==> c == Returned(r.value)
    ensures r.Raw? ==> c == AsNullableArray(r.value)
    ensures r.GuzzleResponse? && json(r.body).Some? ==> c == AsNullableArray(json(r.body).value)
  {
    match r
    case Raw(v) => AsNullableArray(v)
    case GuzzleResponse(body) =>
      match json(body)
      case None => Threw(JsonException)
      case Some(v) => AsNullableArray(v)
  }

  /** The token the API call is made with: the message's override if it has one, else the client's. */
  function EffectiveToken(v: MessageView, clientToken: Option<string>): (token: Option<string>)
    ensures v.token.Some? ==> token == v.token
    ensures v.token.None? ==> token == clientToken
  {
    if v.token.Some? then v.token else clientToken
  }

  /** The result of one dispatch: the effects it produced in order, how it ended, the message
      afterwards and the client's token afterwards. */
  datatype Run = Run(effects: seq<Effect>, completion: Completion, message: MessageView, clientToken: Option<string>)

  /** The recipient the chain of fallbacks yields for message `v` and notifiable `n`. */
  function RecipientOf(v: MessageView, n: Notifiable): Value {
    Resolve(PayloadValue(v.payload, ChatIdKey), n.RouteFor(TelegramKey), n.RouteFor(ChannelClass))
  }

  /** What follows the API call inside the `try`: the effects after it and how `send` ends. */
  datatype Settled = Settled(effects: seq<Effect>, completion: Completion)

  /** The `try`/`catch` around the API call for a message whose payload is `request`: a
      CouldNotSendNotification is reported (to the handler if there is one, then as an event on
      the `telegram` channel) and rethrown, any other exception escapes, a response is decoded. */
  function Settlement(request: map<string, Value>, hasHandler: bool, t: Transport,
                      json: string -> Option<Value>): (s: Settled)
    ensures t.Raised? ==> s.completion == Threw(t.exception)
    ensures t.Delivered? ==> s.effects == [] && s.completion == Decode(t.response, json)
    ensures |s.effects| <= (if hasHandler then 2 else 1)
  {
    match t
    case Delivered(r) => Settled([], Decode(r, json))
    case Raised(e) =>
      if e.CouldNotSendNotification? then
        var data := FailureData(PayloadValue(request, ChatIdKey), request, e);
        var handled := if hasHandler then [HandlerCalled(data)] else [];
        Settled(handled + [NotificationFailed(TelegramKey, data)], Threw(e))
      else
        Settled([], Threw(e))
  }

  /** One dispatch of message `v` to `n`, with the client holding `clientToken`, the API call
      ending as `t` and `json` as the decoder. */
  function Dispatch(v: MessageView, n: Notifiable, clientToken: Option<string>, t: Transport,
                    json: string -> Option<Value>): (r: Run)
    ensures r.message.sendable == v.sendable && r.message.token == v.token && r.message.hasHandler == v.hasHandler
    ensures r.clientToken == clientToken || r.clientToken == v.token
    ensures r.completion.Returned? ==> r.completion.value.Null? || r.completion.value.Arr?
  {
    if !v.sendable then Run([], Returned(Null), v, clientToken)
    else
      var lookups := LookupEffects(RoutesConsulted(PayloadValue(v.payload, ChatIdKey), n));
      var to := RecipientOf(v, n);
      if !Truthy(to) then Run(lookups, Returned(Null), v, clientToken)
      else
        var addressed := v.(payload := v.payload[ChatIdKey := to]);
        var token := EffectiveToken(v, clientToken);
        var sent := lookups + (if v.token.Some? then [SetToken(v.token.value)] else [])
                    + [Transmit(addressed.payload, token)];
        var after := Settlement(addressed.payload, v.hasHandler, t, json);
        Run(sent + after.effects, after.completion, addressed, token)
  }

  lemma AppendAssoc(a: seq<Effect>, b: seq<Effect>, c: seq<Effect>)
    ensures (a + b) + c == a + (b + c)
  {
  }

  /** The API client the message of `output` talks to: its own, or the container's `app` for a wrapped string. */
  function ClientOf(output: Output, app: Client): Client {
    if output.Built? then output.message.client else app
  }

  /** The message `send` starts from, before it is addressed. */
  function Start(output: Output, app: Client): MessageView
    reads if output.Built? then {output.message} else {}
  {
    if output.Built? then output.message.View() else Wrap(output.text)
  }

  class TelegramChannel {
    /** Everything this channel and its collaborators have done so far, oldest first. */
    var effects: seq<Effect>

    constructor ()
      ensures effects == []
    {
      effects := [];
    }

    /** Send the notification whose `toTelegram` produced `output` to `notifiable`. A plain string
        is wrapped by `create` with the container's client `app`. */
    method Send(notifiable: Notifiable, output: Output, app: Client, transport: Transport,
                json: string -> Option<Value>) returns (c: Completion)
      modifies this, if output.Built? then {output.message, output.message.client} else {app}
      ensures effects == old(effects) + Dispatch(old(Start(output, app)), notifiable, old(ClientOf(output, app).token), transport, json).effects
      ensures c == Dispatch(old(Start(output, app)), notifiable, old(ClientOf(output, app).token), transport, json).completion
      ensures ClientOf(output, app).token == Dispatch(old(Start(output, app)), notifiable, old(ClientOf(output, app).token), transport, json).clientToken
      ensures output.Built? ==>
        output.message.View() == Dispatch(old(Start(output, app)), notifiable, old(ClientOf(output, app).token), transport, json).message
    {
      var message: TelegramMessage;
      if output.Text? {
        message := new TelegramMessage.Create(output.text, app);
      } else {
        message := output.message;
      }
      c := Deliver(message, notifiable, transport, json);
    }

    /** Everything `send` does once it holds a message object. */
    method Deliver(message: TelegramMessage, notifiable: Notifiable, transport: Transport,
                   json: string -> Option<Value>) returns (c: Completion)
      modifies this, message`payload, message.client
      ensures var r := Dispatch(old(message.View()), notifiable, old(message.client.token), transport, json);
        && effects == old(effects) + r.effects
        && c == r.completion
        && message.View() == r.message
        && message.client.token == r.clientToken
    {
      ghost var r := Dispatch(message.View(), notifiable, message.client.token, transport, json);
      ghost var before := effects;

      if !message.CanSend() {
        return Returned(Null);
      }

      // The effects up to and including the API call, appended to `effects` in one step.
      var chatId := message.GetPayloadValue(ChatIdKey);
      var trace := LookupEffects(RoutesConsulted(chatId, notifiable));
      var to := Resolve(chatId, notifiable.RouteFor(TelegramKey), notifiable.RouteFor(ChannelClass));

      if !Truthy(to) {
        effects := effects + trace;
        return Returned(Null);
      }

      message.To(to);
      if message.HasToken() {
        message.client.SetToken(message.token.value);
        trace := trace + [SetToken(message.token.value)];
      }
      trace := trace + [Transmit(message.payload, message.client.token)];
      assert message.View() == r.message && message.client.token == r.clientToken;
      assert r.effects == trace + Settlement(message.payload, message.hasHandler, transport, json).effects;

      effects := effects + trace;
      c := Settle(message, transport, json);
      AppendAssoc(before, trace, Settlement(message.payload, message.hasHandler, transport, json).effects);
    }

    /** The `try`/`catch` block: the API call has been made and ended as `transport`. */
    method Settle(message: TelegramMessage, transport: Transport, json: string -> Option<Value>)
      returns (c: Completion)
      modifies this
      ensures var s := Settlement(message.payload, message.hasHandler, transport, json);
        effects == old(effects) + s.effects && c == s.completion
    {
      match transport {
        case Raised(e) =>
          if e.CouldNotSendNotification? {
            var data := FailureData(message.GetPayloadValue(ChatIdKey), message.payload, e);
            if message.hasHandler {
              effects := effects + [HandlerCalled(data)];
            }
            effects := effects + [NotificationFailed(TelegramKey, data)];
          }
          c := Threw(e);
        case Delivered(response) =>
          c := Decode(response, json);
      }
    }
  }
}
