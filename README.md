# Delivery notification relay — a Dafny model

This project models the real-time notification relay of the delivery-dispatch
administration console. There are four parts:

- **Broadcast registry** (`src/app/lib/api.ts`). A process-wide set of open
  stream controllers with `addClient`, `removeClient` and `broadcastToClients`.
  Broadcasting writes the Server-Sent Events record `data: <json>\n\n` to every
  controller. A controller whose `enqueue` throws is dropped from the set.
- **Two webhook endpoints**. They translate upstream payloads into the
  `{type, message, delivery, timestamp}` notification the browser consumes:
  - the `{event, data, timestamp?}` shape (`src/app/api/webhooks/delivery/route.ts`);
  - the `{delivery, action}` shape (`src/app/api/webhook/deliveries/route.ts`).
- **Stream consumer** (`src/app/hooks/useNotifications.ts`). The `onmessage`
  handler turns each message into a sound attempt, a toast or nothing, keyed by
  its `type`.
- **Wire format** between registry and consumer. This is the record written by
  the registry and decoded as in section 9.2.6 of the WHATWG HTML Living
  Standard ("Interpreting an event stream").

Modules:

- `Wrappers`: `Option`, used for JavaScript's `undefined`.
- `Json`: parsed JSON values, with JavaScript truthiness, property access,
  `String()` conversion and `JSON.stringify`.
- `EventStream`: records and their decoding.
- `Relay`: the `Controller` and `Registry` classes.
- `Ingress`: shared kinds and replies.
- `DeliveryWebhook` and `DeliveriesWebhook`: the two endpoints.
- `NotificationHook`: the consumer.
- `Pipeline`: end-to-end lemmas.

The clock (`new Date().toISOString()`) is a `now` parameter. `JSON.parse` is
modelled as its outcome: the consumer receives `Option<Json>`, where `None`
means the parse threw. The end-to-end lemma takes a `parse` function and
requires it to read back what `JSON.stringify` wrote.

Notes on the code's behaviour:

- The `{delivery, action}` endpoint answers 500 to invalid JSON and to a `null`
  body. Reading `.delivery` of `null` throws, and the catch turns that into 500.
- That endpoint also emits a fourth kind, `info`. The consumer ignores it.
- The consumer keeps no notification log. It only toasts and plays a sound.
- Subscribers have no open/closing/closed state machine. The registry only
  tracks membership, and a controller's own state decides whether `enqueue`
  throws.
- Converting a value to text throws a `TypeError` when the value is a parsed
  object with a `toString` member of its own, or an array holding one: that
  member is a JSON value, not a function. A field that a message template
  prints can be such an object. The `{delivery, action}` endpoint then answers
  500 from its catch. In the `{event, data}` endpoint the mapping runs outside
  any `try`, so the handler's promise rejects. The model records this as the
  `Unhandled` reply and leaves the framework's response to it unmodelled.
  Neither endpoint broadcasts anything in that case.

## Model

| member | source | states |
|---|---|---|
| `Json.StringifySingleLine` | src/app/lib/api.ts:196-197 | `JSON.stringify` output never contains a raw LF or CR, so the notification's JSON is a single `data:` line |
| `Json.Lookup` | src/app/api/webhooks/delivery/route.ts:8-10 | reading a property gives `undefined` exactly when no member has that key; otherwise it gives the value of the last member with that key, as `JSON.parse` keeps the last of duplicate keys |
| `Json.LookupMember` | src/app/api/webhooks/delivery/route.ts:18-23 | in an object with distinct keys, each member's value is found under its own key |
| `Json.InterpolateOrEmpty` | src/app/api/webhooks/delivery/route.ts:20 | `${v ?? ''}` is empty for `null` or `undefined`; otherwise it is `String(v)`; it is defined only for a value whose conversion does not throw |
| `EventStream.Frame` | src/app/lib/api.ts:196-197 | the broadcast record starts with `data: ` and ends with a blank line |
| `EventStream.FrameDispatchesOnce` | src/app/lib/api.ts:196-197 | one notification record makes the browser dispatch exactly one message event; its data is the notification's JSON text, and the reader is left ready for the next record |
| `EventStream.KeepAliveIsSilent` | src/app/api/notifications/stream/route.ts:16-21 | the `: keep-alive` comment record dispatches nothing and leaves the reader as it was |
| `EventStream.EncodeRoundTrip` | src/app/lib/api.ts:193-203 | over any mix of notification and keep-alive records, the consumer gets each notification's JSON exactly once, in order, and nothing for keep-alives |
| `EventStream.KeepAlivesOnlyAreSilent` | src/app/api/notifications/stream/route.ts:16-21 | a stream of keep-alive records only dispatches no event |
| `EventStream.FramesDecode` | src/app/lib/api.ts:193-203 | a controller that accepted the records of notifications n1..nk decodes to exactly their JSON texts, in order |
| `Relay.Controller.Enqueue` | src/app/lib/api.ts:196-198 | `enqueue` succeeds exactly when the stream is open, and then appends exactly that one chunk; a failed call changes nothing |
| `Relay.Registry.constructor` | src/app/lib/api.ts:183 | the registry starts empty |
| `Relay.Registry.AddClient` | src/app/lib/api.ts:185-187 | the set becomes old set ∪ {c}; adding a registered controller leaves it unchanged, otherwise the size grows by one |
| `Relay.Registry.RemoveClient` | src/app/lib/api.ts:189-191 | the set becomes old set − {c}; removing an absent controller is a no-op, otherwise the size shrinks by one |
| `Relay.Registry.BroadcastToClients` | src/app/lib/api.ts:193-203 | the new set is exactly the old members whose `enqueue` did not throw; each of those received exactly one identical record; failed ones received nothing; no controller joins; the method always completes (an empty set is left as it was) |
| `Relay.FailingSubscriberIsIsolated` | src/app/lib/api.ts:193-203 | with one healthy and one closed subscriber, a burst of k publishes gives the healthy one all k records, in order, decoding to the k JSON texts; the closed one gets none and is unregistered after the first publish |
| `DeliveryWebhook.ToJson` | src/app/api/webhooks/delivery/route.ts:18-23 | the notification object exposes `type`, `message`, `delivery` and `timestamp` as built |
| `DeliveryWebhook.DataOf` | src/app/api/webhooks/delivery/route.ts:9 | `delivery` is `payload.data` when that is truthy, otherwise `{}`, and is always truthy |
| `DeliveryWebhook.TimestampOf` | src/app/api/webhooks/delivery/route.ts:10 | a truthy `payload.timestamp` is kept as it is; otherwise the timestamp is the current time; the result is always truthy or the current time |
| `DeliveryWebhook.MapToClientNotification` | src/app/api/webhooks/delivery/route.ts:7-48 | the mapping throws exactly when a field that the event's template prints cannot be converted to text; otherwise the type is `new_delivery`, `assignment` or `status_update`, and `delivery` and `timestamp` are as above |
| `DeliveryWebhook.FalsyEventIsGeneric` | src/app/api/webhooks/delivery/route.ts:12-14 | a missing or falsy `event` never throws and gives `status_update` / `Notification reçue` |
| `DeliveryWebhook.CreatedEvent` | src/app/api/webhooks/delivery/route.ts:17-23 | `delivery_created` throws exactly when the id cannot be converted; otherwise it gives `new_delivery` with `Nouvelle livraison #<id> créée`; a null or absent id becomes the empty string |
| `DeliveryWebhook.AssignedEvent` | src/app/api/webhooks/delivery/route.ts:24-30 | `delivery_assigned` throws exactly when the id cannot be converted; otherwise it gives `assignment` with `Livraison #<id> assignée` |
| `DeliveryWebhook.StatusChangedEvent` | src/app/api/webhooks/delivery/route.ts:31-37 | `delivery_status_changed` throws exactly when the id or the status cannot be converted; otherwise it gives `status_update` with `Statut de la livraison #<id> mis à jour: <status>` |
| `DeliveryWebhook.CancelledOrOtherEvent` | src/app/api/webhooks/delivery/route.ts:38-46 | `delivery_cancelled` throws exactly when the id cannot be converted, and otherwise gives `status_update` with `Livraison #<id> annulée`; any other or non-string event never throws and gives `status_update` / `Notification reçue` |
| `DeliveryWebhook.KindFollowsEvent` | src/app/api/webhooks/delivery/route.ts:16-47 | when two payloads with the same event are both mapped, their types are equal, whatever the data, timestamp or clock |
| `DeliveryWebhook.StatusChangedExample` | src/app/api/webhooks/delivery/route.ts:31-37 | id 7 and status `livre` give `status_update` with `Statut de la livraison #7 mis à jour: livre`, timestamped with the current time |
| `DeliveryWebhook.Handle` | src/app/api/webhooks/delivery/route.ts:50-68 | an unparsable or falsy body gives 400 `Invalid JSON`; a truthy body whose mapping throws leaves the promise rejected (`Unhandled`); every other body gives `{ok:true}`; something is published exactly on `{ok:true}`, and it is the mapped notification |
| `DeliveryWebhook.UnprintableIdIsUnhandled` | src/app/api/webhooks/delivery/route.ts:20 | `{"event":"delivery_created","data":{"delivery_id":{"toString":0}}}` is `Unhandled` and publishes nothing |
| `DeliveryWebhook.Post` | src/app/api/webhooks/delivery/route.ts:50-68 | the reply is Handle's; without a publication the registry and every controller are unchanged; with one, the registry changes exactly as a broadcast does, and nothing reaches the reply |
| `DeliveriesWebhook.Classify` | src/app/api/webhook/deliveries/route.ts:18-34 | building the message throws exactly when a field its template prints cannot be converted; otherwise the type is one of `new_delivery`, `status_update`, `assignment`, `info`, and it is `info` exactly when the action is none of `created`, `status_updated`, `assigned` |
| `DeliveriesWebhook.CreatedAction` | src/app/api/webhook/deliveries/route.ts:19-22 | `created` gives `new_delivery`; the message uses the description if truthy, otherwise `Livraison #<id>`; it throws exactly when the one of those that is printed cannot be converted |
| `DeliveriesWebhook.StatusUpdatedAction` | src/app/api/webhook/deliveries/route.ts:23-26 | `status_updated` throws exactly when `statut` or `id` cannot be converted; otherwise it gives `status_update` with `Statut mis à jour: <statut> pour la livraison #<id>` |
| `DeliveriesWebhook.AssignedAction` | src/app/api/webhook/deliveries/route.ts:27-30 | `assigned` throws exactly when the id cannot be converted; otherwise it gives `assignment` with `Livraison #<id> assignée à un livreur` |
| `DeliveriesWebhook.OtherActionIsInfo` | src/app/api/webhook/deliveries/route.ts:31-33 | any other, missing or non-string action throws exactly when the id cannot be converted, and otherwise gives `info` with `Mise à jour pour la livraison #<id>` |
| `DeliveriesWebhook.NotificationJson` | src/app/api/webhook/deliveries/route.ts:37-42 | the broadcast object exposes `type`, `delivery`, `message` and a `timestamp` equal to the current time |
| `DeliveriesWebhook.Handle` | src/app/api/webhook/deliveries/route.ts:4-52 | the reply is 500 exactly for invalid JSON, a `null` body, or a valid body whose message template throws; it is 400 `Invalid payload` exactly when `delivery` is missing or falsy; something is published exactly when the reply is `{success:true, message:'Notification sent'}` |
| `DeliveriesWebhook.PublishedNotification` | src/app/api/webhook/deliveries/route.ts:16-52 | a body that is not `null` and whose `delivery` is truthy is answered `Notification sent` when its message can be built, and the published notification carries that `delivery` unchanged, the classified type and message, and the current time; when the message cannot be built it is answered 500 and nothing is published |
| `DeliveriesWebhook.CreatedByIdMessage` | src/app/api/webhook/deliveries/route.ts:19-22 | creating `{"id":42}` without a description gives `Nouvelle livraison créée: Livraison #42` |
| `DeliveriesWebhook.UnprintableIdIsInternalError` | src/app/api/webhook/deliveries/route.ts:27-30 | `{"delivery":{"id":{"toString":0}},"action":"assigned"}` is answered 500 and publishes nothing |
| `DeliveriesWebhook.CreatedExample` | src/app/api/webhook/deliveries/route.ts:4-47 | the body `{"delivery":{"id":42},"action":"created"}` is accepted and publishes a `new_delivery` with that message |
| `DeliveriesWebhook.Post` | src/app/api/webhook/deliveries/route.ts:4-52 | the reply is Handle's; the registry changes exactly as a broadcast does when Handle publishes, and not at all otherwise |
| `NotificationHook.OnMessage` | src/app/hooks/useNotifications.ts:41-66 | a parse failure, or a `null` message, is only logged; a sound is attempted exactly for `new_delivery` when an audio element exists |
| `NotificationHook.KindEffects` | src/app/hooks/useNotifications.ts:46-61 | `new_delivery` gives a sound plus a 5000 ms toast with 📦; `status_update` gives one 4000 ms toast with 🔄; `assignment` gives one 4000 ms toast with 👤; the last two play no sound |
| `NotificationHook.KnownKindToasts` | src/app/hooks/useNotifications.ts:46-61 | a recognised type gives exactly one toast, whose text is the message's `message` verbatim |
| `NotificationHook.UnknownKindIsInert` | src/app/hooks/useNotifications.ts:45-62 | any other type, missing or not a string, gives no effect at all |
| `NotificationHook.HelloIsInert` | src/app/api/notifications/stream/route.ts:13 | the stream's `hello` welcome record gives no effect |
| `NotificationHook.AtMostOneToast` | src/app/hooks/useNotifications.ts:41-66 | every message gives one toast if its type is recognised and none otherwise, parse failures included |
| `NotificationHook.RejectedSoundKeepsToast` | src/app/hooks/useNotifications.ts:17-21 | a refused playback gives the effects of a successful one followed by one logged error, for `new_delivery` only; the visible effects are the same |
| `Pipeline.DeliveryWebhookAlwaysShown` | src/app/api/webhooks/delivery/route.ts:12-47 | every notification the `{event, data}` endpoint publishes is shown as exactly one toast carrying its message |
| `Pipeline.DeliveriesWebhookShownUnlessInfo` | src/app/api/webhook/deliveries/route.ts:31-33 | every notification the `{delivery, action}` endpoint publishes is shown as one toast with its message, except the `info` kind, which the consumer ignores |
| `Pipeline.StreamReactions` | src/app/hooks/useNotifications.ts:41-66 | over the wire, the consumer reacts to each published notification once and in order, and to keep-alive records not at all |
| `Pipeline.KeepAlivesCauseNothing` | src/app/api/notifications/stream/route.ts:16-21 | a consumer receiving only keep-alive records shows, plays and logs nothing |

## Left out

- Numbers are integers. Fractions, exponent forms (`String(1e21)`), `-0`, `NaN` and the precision limits of doubles are floating point and are not modelled.
- Objects keep their members in the order the model lists them. JavaScript enumerates integer-like keys first, in ascending order, and `JSON.parse` keeps only the last of duplicate keys. So `Json.Stringify` writes what `JSON.stringify` writes only for objects with distinct keys that are not integer-like. Every object the relay builds is one, but a sender's `delivery` or `data` need not be.
- `JSON.parse` is not modelled. The consumer takes its outcome, and the end-to-end lemma assumes a parser that reads back what `JSON.stringify` wrote.
- `TextEncoder` is not modelled: chunks are strings rather than UTF-8 bytes.
- `Relay.Registry.BroadcastToClients`: does not model the insertion order in which `Set.forEach` visits controllers, because the model iterates in an arbitrary order. Each controller's final state does not depend on that order.
- Concurrent calls are not modelled. Every operation runs to completion. A registration during a broadcast cannot happen in this model.
- The stream channel (`src/app/api/notifications/stream/route.ts`) is not modelled as an operation. Its welcome record and keep-alive record appear only as constants. Its `addClient`/`removeClient` calls are the registry operations above. Its 15-second timer and its abort cleanup (which relies on an optional `controller.signal`) are timing and transport code.
- `src/app/notifications/stream/route.ts` keeps a second, private set that nothing broadcasts to. It is not part of this model.
- Event-stream decoding covers `data` fields, comment lines, blank-line dispatch and discarding an unfinished event at the end of the stream. It does not cover CR or CRLF line endings, the effects of the `event`, `id` and `retry` fields, or a leading byte-order mark. The relay never writes any of these.
- Reconnection, teardown and the `Notification.requestPermission` call are timer and transport callbacks (`src/app/hooks/useNotifications.ts:29-34, 68-85`) and are not modelled. So are the audio element's creation and volume.
- Logging in the consumer (`src/app/hooks/useNotifications.ts`) is the `LogError` effect. Its text is not modelled.
- The `console.error` that the `{delivery, action}` endpoint writes before its 500 reply (`src/app/api/webhook/deliveries/route.ts:49`) is not modelled. Its `Outcome` records only the reply and the publication.
- HTTP headers, the edge runtime and the reply encoding are not modelled.
- The Axios REST wrappers (`src/app/lib/api.ts:1-180`), the dashboard pages, the login form and `middleware.ts` are outside the relay. They are not part of this model.
