/**
 * Concrete dispatches: the precedence of the recipient sources, a wrapped plain
 * string, and the two ways a successful response is returned.
 */
module ChannelScenarios {
  import opened Php
  import opened Wrappers
  import opened Recipient
  import opened Effects
  import opened Message
  import opened Channel
  import opened ChannelProperties

  /** A notifiable that answers "B" for `telegram` and "C" for the channel's class. */
  function RoutesBC(): Notifiable {
    Notifiable(map[TelegramKey := Str("B"), ChannelClass := Str("C")])
  }

  /** With `chat_id` "A" in the payload the message goes to "A", and neither route is consulted. */
  lemma PayloadRecipientWins(v: MessageView, tok: Option<string>, t: Transport, json: string -> Option<Value>)
    requires v.sendable && ChatIdKey in v.payload && v.payload[ChatIdKey] == Str("A")
    ensures var r := Dispatch(v, RoutesBC(), tok, t, json);
      && Filter(r.effects, IsTransmit) == [Transmit(v.payload, EffectiveToken(v, tok))]
      && Filter(r.effects, IsLookup) == []
  {
    assert RecipientOf(v, RoutesBC()) == Str("A");
    assert v.payload[ChatIdKey := Str("A")] == v.payload;
    SentShape(v, RoutesBC(), tok, t, json);
  }

  /** Without a `chat_id` the `telegram` route "B" is used, after exactly one lookup. */
  lemma TelegramRouteIsNext(v: MessageView, tok: Option<string>, t: Transport, json: string -> Option<Value>)
    requires v.sendable && ChatIdKey !in v.payload
    ensures var r := Dispatch(v, RoutesBC(), tok, t, json);
      && r.effects[0] == RouteLookup(TelegramKey)
      && Filter(r.effects, IsLookup) == [RouteLookup(TelegramKey)]
      && Filter(r.effects, IsTransmit) == [Transmit(v.payload[ChatIdKey := Str("B")], EffectiveToken(v, tok))]
  {
    assert LookupEffects([TelegramKey]) == [RouteLookup(TelegramKey)] by {
      assert [TelegramKey][1..] == [];
    }
    assert RoutesBC().RouteFor(TelegramKey) == Str("B");
    assert RecipientOf(v, RoutesBC()) == Str("B");
    SentShape(v, RoutesBC(), tok, t, json);
  }

  /** A plain empty string is wrapped into a message that cannot be sent: nothing happens. */
  lemma EmptyTextIsSkipped(n: Notifiable, tok: Option<string>, t: Transport, json: string -> Option<Value>)
    ensures Dispatch(Wrap(""), n, tok, t, json) == Run([], Returned(Null), Wrap(""), tok)
  {
  }

  /** A plain string is wrapped with no recipient of its own, so the notifiable is asked first;
      the API call carries the text and the recipient the route gave. */
  lemma WrappedTextIsSent(text: string, n: Notifiable, tok: Option<string>, t: Transport,
                          json: string -> Option<Value>)
    requires text != "" && Truthy(n.RouteFor(TelegramKey))
    ensures var r := Dispatch(Wrap(text), n, tok, t, json);
      && r.effects[0] == RouteLookup(TelegramKey)
      && Filter(r.effects, IsTransmit)
         == [Transmit(map[TextKey := Str(text), ChatIdKey := n.RouteFor(TelegramKey)], tok)]
  {
    assert RecipientOf(Wrap(text), n) == n.RouteFor(TelegramKey);
    SentShape(Wrap(text), n, tok, t, json);
  }

  /** A transport that hands back the array `['ok' => true, 'result' => ['message_id' => 42]]`
      has that very array returned. */
  lemma RawArrayReturnedUnchanged(v: MessageView, n: Notifiable, tok: Option<string>, json: string -> Option<Value>)
    requires Reaches(v, n)
    ensures var body := Arr([("ok", Bool(true)), ("result", Arr([("message_id", Int(42))]))]);
      Dispatch(v, n, tok, Delivered(Raw(body)), json).completion == Returned(body)
  {
    var body := Arr([("ok", Bool(true)), ("result", Arr([("message_id", Int(42))]))]);
    ResponseDecodedUnreported(v, n, tok, Raw(body), json);
  }

  /** A Guzzle response whose body decodes to `['ok' => true]` has that array returned. */
  lemma JsonBodyReturnedDecoded(v: MessageView, n: Notifiable, tok: Option<string>, json: string -> Option<Value>)
    requires Reaches(v, n)
    requires json("{\"ok\":true}") == Some(Arr([("ok", Bool(true))]))
    ensures Dispatch(v, n, tok, Delivered(GuzzleResponse("{\"ok\":true}")), json).completion
         == Returned(Arr([("ok", Bool(true))]))
  {
    ResponseDecodedUnreported(v, n, tok, GuzzleResponse("{\"ok\":true}"), json);
  }
}
