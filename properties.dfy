/**
 * What `TelegramChannel::send` guarantees, stated over `Channel.Dispatch`, the
 * function that `TelegramChannel.Send` is proved to follow.
 */
module ChannelProperties {
  import opened Php
  import opened Wrappers
  import opened Recipient
  import opened Effects
  import opened Message
  import opened Channel

  /** The dispatch gets past both silent skips and calls the API. */
  predicate Reaches(v: MessageView, n: Notifiable) {
    v.sendable && Truthy(RecipientOf(v, n))
  }

  /** Filtering a one-effect trace. */
  lemma FilterSingle(e: Effect, keep: Effect -> bool)
    ensures Filter([e], keep) == if keep(e) then [e] else []
  {
    assert [e][1..] == [];
  }

  /** Filtering distributes over a trace built from four consecutive parts. */
  lemma FilterFour(a: seq<Effect>, b: seq<Effect>, c: seq<Effect>, d: seq<Effect>, keep: Effect -> bool)
    ensures Filter(a + b + c + d, keep) == Filter(a, keep) + Filter(b, keep) + Filter(c, keep) + Filter(d, keep)
  {
    FilterAppend(a + b + c, d, keep);
    FilterAppend(a + b, c, keep);
    FilterAppend(a, b, keep);
  }

  /** Route lookups are neither token writes, API calls, handler calls nor events. */
  lemma LookupsAreOnlyLookups(keys: seq<string>)
    ensures Filter(LookupEffects(keys), IsTokenWrite) == []
    ensures Filter(LookupEffects(keys), IsTransmit) == []
    ensures Filter(LookupEffects(keys), IsHandlerCall) == []
    ensures Filter(LookupEffects(keys), IsFailureEvent) == []
  {
    var es := LookupEffects(keys);
    forall i | 0 <= i < |es| ensures es[i].RouteLookup? {
      LookupEffectsAt(keys, i);
    }
    FilterNone(es, IsTokenWrite);
    FilterNone(es, IsTransmit);
    FilterNone(es, IsHandlerCall);
    FilterNone(es, IsFailureEvent);
  }

  /** A message that cannot be sent is skipped before anything else happens: null is returned,
      nothing is looked up, no token is written, the API is not called and nothing is reported. */
  lemma UnsendableIsSkipped(v: MessageView, n: Notifiable, tok: Option<string>, t: Transport,
                            json: string -> Option<Value>)
    requires !v.sendable
    ensures Dispatch(v, n, tok, t, json) == Run([], Returned(Null), v, tok)
  {
  }

  /** When the payload `chat_id` and both routes are falsy, null is returned after the two
      lookups, the message and the client are untouched, and the API is neither configured,
      called nor reported on. */
  lemma NoRecipientIsSkipped(v: MessageView, n: Notifiable, tok: Option<string>, t: Transport,
                             json: string -> Option<Value>)
    requires v.sendable
    requires FirstTruthy(Candidates(PayloadValue(v.payload, ChatIdKey), n)) == None
    ensures var r := Dispatch(v, n, tok, t, json);
      && r.completion == Returned(Null)
      && r.effects == [RouteLookup(TelegramKey), RouteLookup(ChannelClass)]
      && r.message == v && r.clientToken == tok
  {
    var chatId := PayloadValue(v.payload, ChatIdKey);
    ResolveIsFirstTruthy(chatId, n);
    FirstTruthyIsFirst(Candidates(chatId, n));
    assert !Truthy(Candidates(chatId, n)[0]) && !Truthy(Candidates(chatId, n)[1]);
    assert LookupEffects([TelegramKey, ChannelClass])[0] == RouteLookup(TelegramKey);
  }

  /** The API is called at most once, and exactly when the message can be sent and the fallback
      chain finds a truthy recipient. */
  lemma AtMostOneApiCall(v: MessageView, n: Notifiable, tok: Option<string>, t: Transport,
                         json: string -> Option<Value>)
    ensures var calls := Filter(Dispatch(v, n, tok, t, json).effects, IsTransmit);
      && |calls| <= 1
      && (|calls| == 1 <==> v.sendable && FirstTruthy(Candidates(PayloadValue(v.payload, ChatIdKey), n)).Some?)
  {
    var r := Dispatch(v, n, tok, t, json);
    var chatId := PayloadValue(v.payload, ChatIdKey);
    ResolveIsFirstTruthy(chatId, n);
    if v.sendable {
      var lookups := LookupEffects(RoutesConsulted(chatId, n));
      LookupsAreOnlyLookups(RoutesConsulted(chatId, n));
      if Truthy(RecipientOf(v, n)) {
        SentShape(v, n, tok, t, json);
      }
    }
  }

  /** The trace of a dispatch that reached the API: lookups, an optional token write, one API
      call, then the effects of the `catch` block, which neither call the API nor write a token. */
  function SentTrace(keys: seq<string>, token: Option<string>, call: Effect, after: seq<Effect>): seq<Effect> {
    LookupEffects(keys) + (if token.Some? then [SetToken(token.value)] else []) + [call] + after
  }

  /** Filtering such a trace with a `keep` that skips lookups: the token write and the API call
      if `keep` wants them, then the filtered `catch` effects. */
  lemma SentTraceFilter(keys: seq<string>, token: Option<string>, call: Effect, after: seq<Effect>,
                        keep: Effect -> bool)
    requires forall k :: !keep(RouteLookup(k))
    ensures Filter(SentTrace(keys, token, call, after), keep)
         == (if token.Some? && keep(SetToken(token.value)) then [SetToken(token.value)] else [])
            + (if keep(call) then [call] else []) + Filter(after, keep)
  {
    var lookups := LookupEffects(keys);
    var writes := if token.Some? then [SetToken(token.value)] else [];
    forall i | 0 <= i < |lookups| ensures !keep(lookups[i]) {
      LookupEffectsAt(keys, i);
    }
    FilterNone(lookups, keep);
    FilterSingle(call, keep);
    if token.Some? {
      FilterSingle(SetToken(token.value), keep);
    }
    FilterFour(lookups, writes, [call], after, keep);
  }

  /** In such a trace the API call is the only one. */
  lemma SentTraceCalls(keys: seq<string>, token: Option<string>, call: Effect, after: seq<Effect>)
    requires call.Transmit?
    requires forall i :: 0 <= i < |after| ==> !after[i].Transmit?
    ensures Filter(SentTrace(keys, token, call, after), IsTransmit) == [call]
  {
    SentTraceFilter(keys, token, call, after, IsTransmit);
    FilterNone(after, IsTransmit);
    assert [] + [call] + [] == [call];
  }

  /** In such a trace the only token write is the message's override. */
  lemma SentTraceTokenWrites(keys: seq<string>, token: Option<string>, call: Effect, after: seq<Effect>)
    requires call.Transmit?
    requires forall i :: 0 <= i < |after| ==> !after[i].SetToken?
    ensures Filter(SentTrace(keys, token, call, after), IsTokenWrite)
         == if token.Some? then [SetToken(token.value)] else []
  {
    SentTraceFilter(keys, token, call, after, IsTokenWrite);
    FilterNone(after, IsTokenWrite);
    var writes := if token.Some? then [SetToken(token.value)] else [];
    assert writes + [] + [] == writes;
  }

  /** In such a trace the handler calls and the failure events all come from the `catch` block. */
  lemma SentTraceReports(keys: seq<string>, token: Option<string>, call: Effect, after: seq<Effect>)
    requires call.Transmit?
    ensures Filter(SentTrace(keys, token, call, after), IsHandlerCall) == Filter(after, IsHandlerCall)
    ensures Filter(SentTrace(keys, token, call, after), IsFailureEvent) == Filter(after, IsFailureEvent)
  {
    SentTraceFilter(keys, token, call, after, IsHandlerCall);
    SentTraceFilter(keys, token, call, after, IsFailureEvent);
  }

  /** In such a trace the lookups are exactly those of `keys`, in order. */
  lemma SentTraceLookups(keys: seq<string>, token: Option<string>, call: Effect, after: seq<Effect>)
    requires call.Transmit?
    requires forall i :: 0 <= i < |after| ==> !after[i].RouteLookup?
    ensures Filter(SentTrace(keys, token, call, after), IsLookup) == LookupEffects(keys)
  {
    var lookups := LookupEffects(keys);
    var writes := if token.Some? then [SetToken(token.value)] else [];
    forall i | 0 <= i < |lookups| ensures IsLookup(lookups[i]) {
      LookupEffectsAt(keys, i);
    }
    FilterAll(lookups, IsLookup);
    FilterSingle(call, IsLookup);
    if token.Some? {
      FilterSingle(SetToken(token.value), IsLookup);
    }
    FilterNone(after, IsLookup);
    FilterFour(lookups, writes, [call], after, IsLookup);
    assert lookups + [] + [] + [] == lookups;
  }

  /** The `catch` block neither calls the API nor writes a token. */
  lemma SettlementIsQuiet(request: map<string, Value>, hasHandler: bool, t: Transport,
                          json: string -> Option<Value>)
    ensures var after := Settlement(request, hasHandler, t, json).effects;
      forall i :: 0 <= i < |after| ==> !after[i].Transmit? && !after[i].SetToken? && !after[i].RouteLookup?
  {
  }

  /** Once the API is reached, the trace is the lookups the `?:` chain makes, the token write if the message
      overrides the token, exactly one API call with the addressed payload and the effective
      token, then the effects of the `catch` block. */
  lemma SentShape(v: MessageView, n: Notifiable, tok: Option<string>, t: Transport,
                  json: string -> Option<Value>)
    requires Reaches(v, n)
    ensures var r := Dispatch(v, n, tok, t, json);
      var request := v.payload[ChatIdKey := RecipientOf(v, n)];
      var after := Settlement(request, v.hasHandler, t, json).effects;
      && r.effects == SentTrace(RoutesConsulted(PayloadValue(v.payload, ChatIdKey), n), v.token,
                                Transmit(request, EffectiveToken(v, tok)), after)
      && Filter(r.effects, IsLookup) == LookupEffects(RoutesConsulted(PayloadValue(v.payload, ChatIdKey), n))
      && Filter(r.effects, IsTransmit) == [Transmit(request, EffectiveToken(v, tok))]
      && Filter(r.effects, IsTokenWrite) == (if v.token.Some? then [SetToken(v.token.value)] else [])
      && Filter(r.effects, IsHandlerCall) == Filter(after, IsHandlerCall)
      && Filter(r.effects, IsFailureEvent) == Filter(after, IsFailureEvent)
  {
    var request := v.payload[ChatIdKey := RecipientOf(v, n)];
    SettlementIsQuiet(request, v.hasHandler, t, json);
    var keys := RoutesConsulted(PayloadValue(v.payload, ChatIdKey), n);
    var call := Transmit(request, EffectiveToken(v, tok));
    var after := Settlement(request, v.hasHandler, t, json).effects;
    SentTraceLookups(keys, v.token, call, after);
    SentTraceCalls(keys, v.token, call, after);
    SentTraceTokenWrites(keys, v.token, call, after);
    SentTraceReports(keys, v.token, call, after);
  }

  /** Over every dispatch: the notifiable is asked for routes only for a sendable message, and
      then exactly as the short-circuiting `?:` chain dictates — not at all when `chat_id` is
      truthy, for `telegram` only when that route is truthy, otherwise for both keys in order. */
  lemma RouteLookupsShortCircuit(v: MessageView, n: Notifiable, tok: Option<string>, t: Transport,
                                 json: string -> Option<Value>)
    ensures Filter(Dispatch(v, n, tok, t, json).effects, IsLookup)
         == if v.sendable then LookupEffects(RoutesConsulted(PayloadValue(v.payload, ChatIdKey), n)) else []
  {
    if Reaches(v, n) {
      SentShape(v, n, tok, t, json);
    } else if v.sendable {
      var keys := RoutesConsulted(PayloadValue(v.payload, ChatIdKey), n);
      forall i | 0 <= i < |keys| ensures IsLookup(LookupEffects(keys)[i]) {
        LookupEffectsAt(keys, i);
      }
      FilterAll(LookupEffects(keys), IsLookup);
    }
  }

  /** The token override: the client's token is written exactly when the message carries a
      token, it is written before the API call, the call is made with the effective token, and
      the client keeps that token afterwards. */
  lemma TokenOverrideBeforeCall(v: MessageView, n: Notifiable, tok: Option<string>, t: Transport,
                                json: string -> Option<Value>)
    requires Reaches(v, n)
    ensures var r := Dispatch(v, n, tok, t, json);
      var request := v.payload[ChatIdKey := RecipientOf(v, n)];
      && Filter(r.effects, IsTokenWrite) == (if v.token.Some? then [SetToken(v.token.value)] else [])
      && Filter(r.effects, IsTransmit) == [Transmit(request, if v.token.Some? then v.token else tok)]
      && r.clientToken == (if v.token.Some? then v.token else tok)
      && (v.token.Some? ==>
            exists i, j :: 0 <= i < j < |r.effects| &&
              r.effects[i] == SetToken(v.token.value) && r.effects[j] == Transmit(request, v.token))
  {
    SentShape(v, n, tok, t, json);
    var r := Dispatch(v, n, tok, t, json);
    if v.token.Some? {
      var request := v.payload[ChatIdKey := RecipientOf(v, n)];
      var k := |LookupEffects(RoutesConsulted(PayloadValue(v.payload, ChatIdKey), n))|;
      assert r.effects[k] == SetToken(v.token.value);
      assert r.effects[k + 1] == Transmit(request, v.token);
    }
  }

  /** Over every dispatch: a token is written if and only if the API is reached and the
      message carries a token. */
  lemma TokenWrittenIff(v: MessageView, n: Notifiable, tok: Option<string>, t: Transport,
                        json: string -> Option<Value>)
    ensures var r := Dispatch(v, n, tok, t, json);
      && (Filter(r.effects, IsTokenWrite) != [] <==> Reaches(v, n) && v.token.Some?)
      && (!(Reaches(v, n) && v.token.Some?) ==> r.clientToken == tok)
  {
    if Reaches(v, n) {
      SentShape(v, n, tok, t, json);
    } else if v.sendable {
      LookupsAreOnlyLookups(RoutesConsulted(PayloadValue(v.payload, ChatIdKey), n));
    }
  }

  /** The recipient is written into the message before the API call: the call carries the
      payload with `chat_id` set to the first truthy candidate, and the message keeps it. */
  lemma RecipientWrittenBeforeCall(v: MessageView, n: Notifiable, tok: Option<string>, t: Transport,
                                   json: string -> Option<Value>, to: Value)
    requires v.sendable
    requires FirstTruthy(Candidates(PayloadValue(v.payload, ChatIdKey), n)) == Some(to)
    ensures var r := Dispatch(v, n, tok, t, json);
      && Filter(r.effects, IsTransmit) == [Transmit(v.payload[ChatIdKey := to], EffectiveToken(v, tok))]
      && r.message == v.(payload := v.payload[ChatIdKey := to])
  {
    ResolveIsFirstTruthy(PayloadValue(v.payload, ChatIdKey), n);
    SentShape(v, n, tok, t, json);
  }

  /** The effects of the `catch` block after a CouldNotSendNotification: the handler call if
      there is a handler, then the one failure event. */
  lemma CaughtEffects(request: map<string, Value>, hasHandler: bool, e: Exception,
                      json: string -> Option<Value>)
    requires e.CouldNotSendNotification?
    ensures var d := FailureData(PayloadValue(request, ChatIdKey), request, e);
      var s := Settlement(request, hasHandler, Raised(e), json);
      && s.completion == Threw(e)
      && s.effects == (if hasHandler then [HandlerCalled(d)] else []) + [NotificationFailed(TelegramKey, d)]
      && Filter(s.effects, IsFailureEvent) == [NotificationFailed(TelegramKey, d)]
      && Filter(s.effects, IsHandlerCall) == (if hasHandler then [HandlerCalled(d)] else [])
  {
    var d := FailureData(PayloadValue(request, ChatIdKey), request, e);
    var handled := if hasHandler then [HandlerCalled(d)] else [];
    FilterAppend(handled, [NotificationFailed(TelegramKey, d)], IsFailureEvent);
    FilterAppend(handled, [NotificationFailed(TelegramKey, d)], IsHandlerCall);
    FilterSingle(NotificationFailed(TelegramKey, d), IsFailureEvent);
    FilterSingle(NotificationFailed(TelegramKey, d), IsHandlerCall);
    if hasHandler {
      FilterSingle(HandlerCalled(d), IsFailureEvent);
      FilterSingle(HandlerCalled(d), IsHandlerCall);
    }
  }

  /** A failed send is reported and rethrown: exactly one NotificationFailed event on the
      `telegram` channel, carrying the recipient, the addressed request and the caught exception;
      the handler, if any, is called once with the same data just before it; the event is the
      last effect; and the very exception that was caught is what `send` throws. */
  lemma SendFailureReported(v: MessageView, n: Notifiable, tok: Option<string>, e: Exception,
                            json: string -> Option<Value>)
    requires Reaches(v, n) && e.CouldNotSendNotification?
    ensures var r := Dispatch(v, n, tok, Raised(e), json);
      var to := RecipientOf(v, n);
      var d := FailureData(to, v.payload[ChatIdKey := to], e);
      && r.completion == Threw(e)
      && Filter(r.effects, IsFailureEvent) == [NotificationFailed(TelegramKey, d)]
      && Filter(r.effects, IsHandlerCall) == (if v.hasHandler then [HandlerCalled(d)] else [])
      && |r.effects| >= 2
      && r.effects[|r.effects| - 1] == NotificationFailed(TelegramKey, d)
      && (v.hasHandler ==> r.effects[|r.effects| - 2] == HandlerCalled(d))
      && r.effects[|r.effects| - (if v.hasHandler then 3 else 2)].Transmit?
  {
    var to := RecipientOf(v, n);
    var request := v.payload[ChatIdKey := to];
    assert PayloadValue(request, ChatIdKey) == to;
    SentShape(v, n, tok, Raised(e), json);
    CaughtEffects(request, v.hasHandler, e, json);
  }

  /** An exception other than CouldNotSendNotification escapes the `catch`: it is thrown
      unchanged and nothing is reported. */
  lemma OtherExceptionEscapes(v: MessageView, n: Notifiable, tok: Option<string>, e: Exception,
                              json: string -> Option<Value>)
    requires Reaches(v, n) && !e.CouldNotSendNotification?
    ensures var r := Dispatch(v, n, tok, Raised(e), json);
      && r.completion == Threw(e)
      && Filter(r.effects, IsFailureEvent) == [] && Filter(r.effects, IsHandlerCall) == []
  {
    SentShape(v, n, tok, Raised(e), json);
  }

  /** A response ends the dispatch in `Decode` with nothing reported; in particular a body that
      is not JSON throws JsonException without any failure event or handler call, since the
      decoding happens after the `try` block. */
  lemma ResponseDecodedUnreported(v: MessageView, n: Notifiable, tok: Option<string>, resp: Response,
                                  json: string -> Option<Value>)
    requires Reaches(v, n)
    ensures var r := Dispatch(v, n, tok, Delivered(resp), json);
      && r.completion == Decode(resp, json)
      && Filter(r.effects, IsFailureEvent) == [] && Filter(r.effects, IsHandlerCall) == []
      && r.effects[|r.effects| - 1].Transmit?
  {
    SentShape(v, n, tok, Delivered(resp), json);
  }

  /** Over every dispatch: a failure is reported (once) exactly when the API was called and
      failed with CouldNotSendNotification, and the handler is called exactly when, in addition,
      the message has one. */
  lemma ReportedIffSendFailed(v: MessageView, n: Notifiable, tok: Option<string>, t: Transport,
                              json: string -> Option<Value>)
    ensures var r := Dispatch(v, n, tok, t, json);
      var failed := Reaches(v, n) && t.Raised? && t.exception.CouldNotSendNotification?;
      && |Filter(r.effects, IsFailureEvent)| == (if failed then 1 else 0)
      && |Filter(r.effects, IsHandlerCall)| == (if failed && v.hasHandler then 1 else 0)
  {
    if Reaches(v, n) {
      if t.Delivered? {
        ResponseDecodedUnreported(v, n, tok, t.response, json);
      } else if t.exception.CouldNotSendNotification? {
        SendFailureReported(v, n, tok, t.exception, json);
      } else {
        OtherExceptionEscapes(v, n, tok, t.exception, json);
      }
    } else if v.sendable {
      LookupsAreOnlyLookups(RoutesConsulted(PayloadValue(v.payload, ChatIdKey), n));
    }
  }

  /** Over every dispatch, how it ends: an exception is thrown only after the API was called,
      and it is either the very exception the transport raised or, after a delivered response,
      a JsonException or TypeError from decoding; a returned value is always null or an array;
      a dispatch that does not reach the API returns null. */
  lemma CompletionOrigin(v: MessageView, n: Notifiable, tok: Option<string>, t: Transport,
                         json: string -> Option<Value>)
    ensures var c := Dispatch(v, n, tok, t, json).completion;
      && (c.Threw? ==> Reaches(v, n))
      && (c.Threw? ==>
            t == Raised(c.exception) ||
            (t.Delivered? && (c.exception == JsonException || c.exception == TypeError)))
      && (c.Returned? ==> c.value.Null? || c.value.Arr?)
      && (!Reaches(v, n) ==> c == Returned(Null))
  {
  }

  /** The override is not undone: after a dispatch that applied token `t1`, a later dispatch
      through the same client of a message without its own token is sent with `t1`. */
  lemma TokenOverrideOutlivesCall(v1: MessageView, n1: Notifiable, tok: Option<string>, t1: Transport,
                                  v2: MessageView, n2: Notifiable, t2: Transport,
                                  json: string -> Option<Value>)
    requires Reaches(v1, n1) && v1.token.Some?
    requires Reaches(v2, n2) && v2.token.None?
    ensures var first := Dispatch(v1, n1, tok, t1, json);
      var second := Dispatch(v2, n2, first.clientToken, t2, json);
      Filter(second.effects, IsTransmit) == [Transmit(v2.payload[ChatIdKey := RecipientOf(v2, n2)], v1.token)]
  {
    var first := Dispatch(v1, n1, tok, t1, json);
    TokenOverrideBeforeCall(v1, n1, tok, t1, json);
    SentShape(v2, n2, first.clientToken, t2, json);
  }
}
