/**
 * Recipient resolution: the payload's `chat_id`, then the notifiable's route for
 * the `telegram` channel, then its route for the channel's class name, combined
 * with PHP's short ternary `?:` so that every falsy value counts as absent.
 */
module Recipient {
  import opened Php
  import opened Wrappers

  /** Payload key that holds the recipient. */
  const ChatIdKey := "chat_id"
  /** Channel key under which the notifiable is asked first, and the channel name of failure events. */
  const TelegramKey := "telegram"
  /** Fully qualified class name of the channel, the second route key. */
  const ChannelClass := "NotificationChannels\\Telegram\\TelegramChannel"

  /** The notifiable's answers to `routeNotificationFor` for each route key; an unknown key answers null. */
  datatype Notifiable = Notifiable(routes: map<string, Value>) {
    function RouteFor(key: string): Value {
      if key in routes then routes[key] else Null
    }
  }

  /** `getPayloadValue(key)`: the stored value, or null when the key is absent. */
  function PayloadValue(payload: map<string, Value>, key: string): Value {
    if key in payload then payload[key] else Null
  }

  /** The expression `chatId ?: (telegramRoute ?: classRoute)`. */
  function Resolve(chatId: Value, telegramRoute: Value, classRoute: Value): (to: Value)
    ensures to == chatId || to == telegramRoute || to == classRoute
    ensures Truthy(to) <==> Truthy(chatId) || Truthy(telegramRoute) || Truthy(classRoute)
  {
    Elvis(chatId, Elvis(telegramRoute, classRoute))
  }

  /** The route keys whose lookup the short-circuiting `?:` chain actually performs, in order. */
  function RoutesConsulted(chatId: Value, n: Notifiable): (keys: seq<string>)
    ensures |keys| <= 2
    ensures keys == [] <==> Truthy(chatId)
    ensures |keys| == 2 <==> !Truthy(chatId) && !Truthy(n.RouteFor(TelegramKey))
    ensures keys <= [TelegramKey, ChannelClass]
  {
    if Truthy(chatId) then []
    else if Truthy(n.RouteFor(TelegramKey)) then [TelegramKey]
    else [TelegramKey, ChannelClass]
  }

  /** Reference definition of a fallback chain: the first truthy candidate, if any. */
  function FirstTruthy(candidates: seq<Value>): Option<Value> {
    if candidates == [] then None
    else if Truthy(candidates[0]) then Some(candidates[0])
    else FirstTruthy(candidates[1..])
  }

  /** The three candidates, in the order the channel consults them. */
  function Candidates(chatId: Value, n: Notifiable): seq<Value> {
    [chatId, n.RouteFor(TelegramKey), n.RouteFor(ChannelClass)]
  }

  /** FirstTruthy finds nothing exactly when every candidate is falsy, and otherwise
      returns a truthy candidate that only falsy candidates precede. */
  lemma {:induction false} FirstTruthyIsFirst(candidates: seq<Value>)
    ensures FirstTruthy(candidates).None? <==> forall i :: 0 <= i < |candidates| ==> !Truthy(candidates[i])
    ensures FirstTruthy(candidates).Some? ==>
      exists i :: 0 <= i < |candidates| && candidates[i] == FirstTruthy(candidates).value &&
        Truthy(candidates[i]) && forall j :: 0 <= j < i ==> !Truthy(candidates[j])
  {
    if candidates != [] && !Truthy(candidates[0]) {
      var rest := candidates[1..];
      FirstTruthyIsFirst(rest);
      assert forall i :: 1 <= i < |candidates| ==> candidates[i] == rest[i - 1];
      if FirstTruthy(rest).Some? {
        var i :| 0 <= i < |rest| && rest[i] == FirstTruthy(rest).value &&
          Truthy(rest[i]) && forall j :: 0 <= j < i ==> !Truthy(rest[j]);
        assert candidates[i + 1] == rest[i];
        assert forall j :: 0 <= j < i + 1 ==> !Truthy(candidates[j]) by {
          forall j | 0 <= j < i + 1 ensures !Truthy(candidates[j]) {
            if j > 0 { assert candidates[j] == rest[j - 1]; }
          }
        }
      }
    }
  }

  /** The `?:` chain agrees with the reference chain: it is truthy exactly when some
      candidate is, and then it is the first truthy candidate. */
  lemma ResolveIsFirstTruthy(chatId: Value, n: Notifiable)
    ensures var to := Resolve(chatId, n.RouteFor(TelegramKey), n.RouteFor(ChannelClass));
      (Truthy(to) <==> FirstTruthy(Candidates(chatId, n)).Some?) &&
      (Truthy(to) ==> to == FirstTruthy(Candidates(chatId, n)).value)
  {
    var a, b, c := chatId, n.RouteFor(TelegramKey), n.RouteFor(ChannelClass);
    assert Candidates(chatId, n)[1..] == [b, c];
    assert [b, c][1..] == [c];
    assert [c][1..] == [];
    assert FirstTruthy([c]) == if Truthy(c) then Some(c) else None;
    assert FirstTruthy([b, c]) == if Truthy(b) then Some(b) else FirstTruthy([c]);
  }

  /** Precedence: the payload `chat_id` wins when truthy whatever the routes say; otherwise the
      `telegram` route wins when truthy whatever the class route says; otherwise the class route. */
  lemma ResolvePrecedence(chatId: Value, telegramRoute: Value, classRoute: Value)
    ensures Truthy(chatId) ==> Resolve(chatId, telegramRoute, classRoute) == chatId
    ensures !Truthy(chatId) && Truthy(telegramRoute) ==> Resolve(chatId, telegramRoute, classRoute) == telegramRoute
    ensures !Truthy(chatId) && !Truthy(telegramRoute) ==> Resolve(chatId, telegramRoute, classRoute) == classRoute
  {
  }

  /** Routes the chain does not consult cannot influence it: two notifiables that agree on the
      consulted keys yield the same recipient and the same lookups. */
  lemma UnconsultedRoutesIrrelevant(chatId: Value, n1: Notifiable, n2: Notifiable)
    requires forall k :: k in RoutesConsulted(chatId, n1) ==> n1.RouteFor(k) == n2.RouteFor(k)
    ensures RoutesConsulted(chatId, n2) == RoutesConsulted(chatId, n1)
    ensures Resolve(chatId, n2.RouteFor(TelegramKey), n2.RouteFor(ChannelClass))
         == Resolve(chatId, n1.RouteFor(TelegramKey), n1.RouteFor(ChannelClass))
  {
    if !Truthy(chatId) {
      assert TelegramKey in RoutesConsulted(chatId, n1);
      if !Truthy(n1.RouteFor(TelegramKey)) {
        assert ChannelClass in RoutesConsulted(chatId, n1);
      }
    }
  }
}
