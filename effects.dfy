/**
 * What the outside world observes of one dispatch: route lookups on the
 * notifiable, writes to the API client's token, the transmission of the request,
 * the user's failure handler and events on Laravel's event dispatcher.
 */
module Effects {
  import opened Php
  import opened Wrappers

  /** Exceptions that can leave the channel. Each `id` stands for one exception object. */
  datatype Exception =
    | CouldNotSendNotification(id: nat)   // the transport's failure, the one the channel catches
    | OtherThrowable(id: nat)             // anything else the transport throws; not caught
    | JsonException                       // raised by json_decode with JSON_THROW_ON_ERROR
    | TypeError                           // the decoded value does not fit the ?array return type

  /** The array `['to' => …, 'request' => …, 'exception' => …]` built when sending fails. */
  datatype FailureData = FailureData(to: Value, request: map<string, Value>, exception: Exception)

  datatype Effect =
    | RouteLookup(key: string)                                          // the notifiable is asked for its route under `key`
    | SetToken(token: string)                                           // the message's API client gets a new token
    | Transmit(request: map<string, Value>, credential: Option<string>) // the API call, with the client's token at that moment
    | HandlerCalled(data: FailureData)                                  // the message's exception handler runs
    | NotificationFailed(channel: string, data: FailureData)            // a failure event goes to the event dispatcher

  predicate IsLookup(e: Effect) { e.RouteLookup? }
  predicate IsTokenWrite(e: Effect) { e.SetToken? }
  predicate IsTransmit(e: Effect) { e.Transmit? }
  predicate IsHandlerCall(e: Effect) { e.HandlerCalled? }
  predicate IsFailureEvent(e: Effect) { e.NotificationFailed? }

  /** The effects of `es` that satisfy `keep`, in their original order. */
  function Filter(es: seq<Effect>, keep: Effect -> bool): (r: seq<Effect>)
    ensures |r| <= |es|
  {
    if es == [] then []
    else if keep(es[0]) then [es[0]] + Filter(es[1..], keep)
    else Filter(es[1..], keep)
  }

  /** Filtering distributes over the concatenation of two traces. */
  lemma {:induction false} FilterAppend(a: seq<Effect>, b: seq<Effect>, keep: Effect -> bool)
    ensures Filter(a + b, keep) == Filter(a, keep) + Filter(b, keep)
  {
    if a != [] {
      assert (a + b)[1..] == a[1..] + b;
      FilterAppend(a[1..], b, keep);
    } else {
      assert a + b == b;
    }
  }

  /** A trace in which nothing satisfies `keep` filters to nothing. */
  lemma {:induction false} FilterNone(es: seq<Effect>, keep: Effect -> bool)
    requires forall i :: 0 <= i < |es| ==> !keep(es[i])
    ensures Filter(es, keep) == []
  {
    if es != [] {
      FilterNone(es[1..], keep);
    }
  }

  /** A trace in which everything satisfies `keep` filters to itself. */
  lemma {:induction false} FilterAll(es: seq<Effect>, keep: Effect -> bool)
    requires forall i :: 0 <= i < |es| ==> keep(es[i])
    ensures Filter(es, keep) == es
  {
    if es != [] {
      FilterAll(es[1..], keep);
    }
  }

  /** The route lookups of the given keys, in order. */
  function LookupEffects(keys: seq<string>): (es: seq<Effect>)
    ensures |es| == |keys|
  {
    if keys == [] then [] else [RouteLookup(keys[0])] + LookupEffects(keys[1..])
  }

  /** The i-th lookup effect is the lookup of the i-th key. */
  lemma {:induction false} LookupEffectsAt(keys: seq<string>, i: nat)
    requires i < |keys|
    ensures LookupEffects(keys)[i] == RouteLookup(keys[i])
  {
    if i > 0 {
      LookupEffectsAt(keys[1..], i - 1);
    }
  }
}
