# Telegram notification channel — a Dafny model

This project models `TelegramChannel::send`, the method that delivers one
Laravel notification through the Telegram bot API. It covers these steps:

- The notification's `toTelegram` output is turned into a message. A plain
  string is wrapped by `TelegramMessage::create`.
- The message is skipped silently when it cannot be sent.
- The recipient is looked up through a fixed fallback chain: the payload's
  `chat_id`, then the notifiable's route for `telegram`, then its route for
  the channel's class name. The chain uses PHP's `?:`, so every falsy value
  (`null`, `false`, `0`, `""`, `"0"`, `[]`) counts as absent.
- The message is skipped silently when no recipient is found.
- The recipient is written into the message.
- The message's token override, if it has one, is applied to its API client.
- The API is called. A `CouldNotSendNotification` is handed to the message's
  exception handler if it has one, reported as one `NotificationFailed` event on the
  `telegram` channel, and rethrown. Any other exception escapes unreported.
- The result is returned. A Guzzle `Response` body is JSON-decoded. Anything
  else is returned as it is.

Layout:

- `php.dfy` (module `Php`): PHP values, truthiness and `?:`.
- `recipient.dfy` (module `Recipient`): the fallback chain as a pure function.
  It is compared with an independent "first truthy candidate" definition, and
  the route lookups that the short-circuiting chain makes are listed.
- `message.dfy` (module `Message`): the message object and the API client, as
  classes whose fields the dispatch updates in place.
- `effects.dfy` (module `Effects`): the observable effects: route lookups,
  token writes, the API call, handler calls and failure events.
- `channel.dfy` (module `Channel`): the pure specification `Dispatch`. It also
  holds the class `TelegramChannel`, whose method `Send` changes the message,
  the client and the channel's effect trace. `Send` is proved to do exactly
  what `Dispatch` describes.
- `properties.dfy` (module `ChannelProperties`): what every dispatch guarantees.
- `scenarios.dfy` (module `ChannelScenarios`): concrete dispatches.

Collaborators are parameters:

- the API call's outcome is a `Transport` value;
- the JSON decoder is a function `json` from text to an optional value (none
  stands for `JsonException`);
- the notifiable is a map from route keys to values;
- the client the container gives to a wrapped string is the parameter `app`.

Two behaviours of the code are worth stating:

- The token override is written to the shared client and never restored
  (src/TelegramChannel.php:49-51). `TokenOverrideOutlivesCall` proves that a
  later message without its own token is sent with it.
- The declared return type `?array` is part of the model. A decoded or raw
  value that is neither an array nor null raises a `TypeError`.

## Model

| member | source | states |
|---|---|---|
| `Php.FalsyValues` | src/TelegramChannel.php:39-45 | exactly null, false, 0, "", "0" and the empty array are falsy, which is how both `?:` and the recipient test treat a value |
| `Php.ElvisChoosesTruthy` | src/TelegramChannel.php:39-41 | `a ?: b` is `a` when `a` is truthy and `b` otherwise, and is truthy iff one operand is |
| `Recipient.RoutesConsulted` | src/TelegramChannel.php:39-41 | the chain asks for no route when `chat_id` is truthy, asks for two routes only when `chat_id` and the `telegram` route are both falsy, and asks in the order `telegram`, then class name |
| `Recipient.FirstTruthyIsFirst` | src/TelegramChannel.php:39-41 | the reference chain finds nothing iff every candidate is falsy, and otherwise returns a truthy candidate preceded only by falsy ones |
| `Recipient.ResolveIsFirstTruthy` | src/TelegramChannel.php:39-45 | the `?:` chain is truthy iff some candidate is, and then equals the first truthy candidate |
| `Recipient.ResolvePrecedence` | src/TelegramChannel.php:39-41 | a truthy `chat_id` wins whatever the routes are; then a truthy `telegram` route wins whatever the class route is; otherwise the class route is used |
| `Recipient.UnconsultedRoutesIrrelevant` | src/TelegramChannel.php:39-41 | two notifiables that agree on the routes the chain consults give the same recipient and the same lookups |
| `Message.Wrap` | src/TelegramChannel.php:31-33 | a wrapped string carries the text, has no recipient, token or handler, and is sendable iff the text is non-empty |
| `Message.TelegramMessage.Create` | src/TelegramChannel.php:31-33 | the created message is the wrapped view of the string, bound to the given client |
| `Message.TelegramMessage.To` | src/TelegramChannel.php:47 | `chat_id` becomes the recipient, replacing any earlier value, and every other payload field is unchanged |
| `Message.Client.SetToken` | src/TelegramChannel.php:49-51 | the client's token becomes the given token |
| `Php.Truthy` | src/TelegramChannel.php:39-45 | PHP's conversion to bool used by `?:` and by the test that skips a falsy recipient (characterised by `Php.FalsyValues`) |
| `Php.Elvis` | src/TelegramChannel.php:39-41 | `a ?: b` is one of its operands, and is truthy iff one operand is |
| `Recipient.Resolve` | src/TelegramChannel.php:39-41 | the recipient is one of the three candidates, and is truthy iff some candidate is |
| `Channel.EffectiveToken` | src/TelegramChannel.php:49-54 | the API call uses the message's token when it has one, otherwise the client's |
| `Channel.Settlement` | src/TelegramChannel.php:53-69 | a raised exception is rethrown unchanged, a response produces no effect and ends in `Decode`, and the catch block produces at most the handler call and one event |
| `Channel.Dispatch` | src/TelegramChannel.php:26-74 | a dispatch changes only the message payload, leaves the client token as it was or sets it to the message's token, and returns only null or an array |
| `Channel.AsNullableArray` | src/TelegramChannel.php:26 | a value is returned iff it is an array or null, and is then returned unchanged; anything else raises a TypeError |
| `Channel.Decode` | src/TelegramChannel.php:71-73 | a raw value goes through the `?array` check (unchanged if array or null, TypeError otherwise); a Guzzle body that decodes is returned decoded; JsonException is raised iff a Guzzle body does not decode; the result is always an array or null |
| `Channel.TelegramChannel.Send` | src/TelegramChannel.php:26-74 | starting from the wrapped string or the built message, the trace grows by exactly the effects of `Dispatch`, the result is its completion, and the message and client end as it says |
| `Channel.TelegramChannel.Deliver` | src/TelegramChannel.php:35-69 | for a message object, the trace, result, message payload and client token follow `Dispatch` from the message's and client's state on entry |
| `Channel.TelegramChannel.Settle` | src/TelegramChannel.php:53-69 | after the API call, the trace grows by the `catch` block's effects and the result is its completion |
| `ChannelProperties.UnsendableIsSkipped` | src/TelegramChannel.php:35-37 | a message that cannot be sent returns null with no lookup, no token write, no API call, no event, and nothing changed |
| `ChannelProperties.NoRecipientIsSkipped` | src/TelegramChannel.php:39-45 | when all three candidates are falsy, null is returned after the two lookups, with no token write, no API call, no event, and the message and client unchanged |
| `ChannelProperties.AtMostOneApiCall` | src/TelegramChannel.php:35-54 | the API is called at most once, and exactly once iff the message is sendable and some candidate is truthy |
| `ChannelProperties.SentShape` | src/TelegramChannel.php:39-54 | once the API is reached, the trace is the chain's lookups, the token write if any, one API call with the addressed payload and effective token, then the `catch` effects |
| `ChannelProperties.RouteLookupsShortCircuit` | src/TelegramChannel.php:39-41 | the notifiable is asked only for a sendable message, and then exactly for the routes the short-circuiting chain evaluates, in order |
| `ChannelProperties.RecipientWrittenBeforeCall` | src/TelegramChannel.php:39-54 | the API call carries the payload with `chat_id` set to the first truthy candidate, and the message keeps that recipient |
| `ChannelProperties.TokenOverrideBeforeCall` | src/TelegramChannel.php:49-54 | the token is written iff the message has one, it is written before the API call, the call uses the message token or else the client's, and the client keeps it |
| `ChannelProperties.TokenWrittenIff` | src/TelegramChannel.php:49-51 | over every dispatch, a token is written iff the API is reached and the message has a token; otherwise the client token is unchanged |
| `ChannelProperties.CaughtEffects` | src/TelegramChannel.php:55-68 | the `catch` block calls the handler (if present) and then emits one event on `telegram` with `{to, request, exception}`, and rethrows the caught exception |
| `ChannelProperties.SendFailureReported` | src/TelegramChannel.php:53-68 | on CouldNotSendNotification: one event on `telegram` with the recipient, the addressed request and the caught exception; the handler, if present, runs once just before it; the event is last; the same exception is thrown |
| `ChannelProperties.OtherExceptionEscapes` | src/TelegramChannel.php:53-55 | any other exception from the API call is thrown unchanged, with no event and no handler call |
| `ChannelProperties.ResponseDecodedUnreported` | src/TelegramChannel.php:53-73 | a response ends in `Decode` with no event and no handler call, so a JSON error propagates unreported; the API call is the last effect |
| `ChannelProperties.ReportedIffSendFailed` | src/TelegramChannel.php:53-69 | over every dispatch, one failure event exists iff the API call raised CouldNotSendNotification; the handler runs iff, in addition, one is attached |
| `ChannelProperties.CompletionOrigin` | src/TelegramChannel.php:53-73 | an exception is thrown only after the API call, and is either the one the transport raised or a decoding error after a response; returns are array or null; a skipped dispatch returns null |
| `ChannelProperties.TokenOverrideOutlivesCall` | src/TelegramChannel.php:49-51 | after a dispatch that applied a token, a later message without its own token is sent through the same client with that token |
| `ChannelScenarios.PayloadRecipientWins` | src/TelegramChannel.php:39-41 | with `chat_id` "A" and routes "B" and "C", the message goes to "A" and no route is asked for |
| `ChannelScenarios.TelegramRouteIsNext` | src/TelegramChannel.php:39-41 | without `chat_id`, the `telegram` route "B" is asked for first and used |
| `ChannelScenarios.EmptyTextIsSkipped` | src/TelegramChannel.php:31-37 | an empty plain string is wrapped and then skipped with no effect at all |
| `ChannelScenarios.WrappedTextIsSent` | src/TelegramChannel.php:31-47 | a non-empty plain string is sent with its text, to the `telegram` route, after asking for it |
| `ChannelScenarios.RawArrayReturnedUnchanged` | src/TelegramChannel.php:71-73 | the raw array `['ok' => true, 'result' => ['message_id' => 42]]` is returned unchanged |
| `ChannelScenarios.JsonBodyReturnedDecoded` | src/TelegramChannel.php:71-73 | a Guzzle body `{"ok":true}` is returned as the decoded array `['ok' => true]` |

## Left out

- HTTP transport: the API call is an abstract `Transport` outcome. The model
  does not tie that outcome to the request or token sent. Network, retries and
  TLS belong to the HTTP client.
- JSON parsing: `json_decode` is the abstract function `json`. Its depth limit
  of 512 and the parsing rules of RFC 8259 are not modelled.
- PHP values: floats (where `0.0` is falsy), integer array keys and objects are
  not modelled. Arrays are ordered lists of string-keyed entries.
- A response object that is neither a Guzzle `Response` nor a plain value is
  not modelled.
- `TelegramMessage` and its builder are outside this model. It is seen only
  through these members:
  - `canSend`, a stored flag;
  - `getPayloadValue`, null for an absent key;
  - `to`, which sets `chat_id`;
  - `hasToken`, true when a token is present;
  - `exceptionHandler`, modelled as present or absent;
  - `toArray`, which is the payload.
- `create(text)` is assumed to store the text under `text` and to be sendable
  iff the text is non-empty. Other default fields, such as
  the parse mode, are not modelled.
- The notification object is opaque. Routes do not depend on it. A
  `NotificationFailed` event records only its channel and data, not the
  notifiable or the notification.
- A notifiable without `routeNotificationFor` is not modelled. The route
  lookups are assumed to return and to have no other effect.
- The user's exception handler is assumed to return normally. An exception
  thrown inside it, which would replace the rethrow, is not modelled.
- Concurrency: the race on a client token shared by concurrent dispatches is
  out of scope.
- `Channel.TelegramChannel.Deliver`: effects before the API call (lookups,
  token write, the call itself) are added to the channel's trace in one
  assignment. The client token and the message are still updated in source
  order. The trace's final content is the same.
