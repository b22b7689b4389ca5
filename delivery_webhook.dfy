/** The `{event, data, timestamp?}` webhook, `src/app/api/webhooks/delivery/route.ts`:
    `mapToClientNotification` and the `POST` handler around it. */
module DeliveryWebhook {
  import opened Wrappers
  import opened Json
  import opened Ingress
  import Relay

  /** The object literal `mapToClientNotification` returns. */
  datatype ClientNotification = ClientNotification(kind: string, message: string, delivery: Json, timestamp: Json)

  /** The notification as an object, members in the order the literal lists them. */
  function ToJson(c: ClientNotification): (j: Json)
    ensures Get(j, "type") == Some(JStr(c.kind))
    ensures Get(j, "message") == Some(JStr(c.message))
    ensures Get(j, "delivery") == Some(c.delivery)
    ensures Get(j, "timestamp") == Some(c.timestamp)
  {
    var members := [("type", JStr(c.kind)), ("message", JStr(c.message)), ("delivery", c.delivery), ("timestamp", c.timestamp)];
    LookupMember(members, 0);
    LookupMember(members, 1);
    LookupMember(members, 2);
    LookupMember(members, 3);
    JObj(members)
  }

  /** `payload?.data || {}` */
  function DataOf(payload: Json): (d: Json)
    ensures Truthy(d)
    ensures match Get(payload, "data")
            case Some(v) => Truthy(v) ==> d == v
            case None => true
    ensures d != JObj([]) ==> Get(payload, "data") == Some(d)
  {
    match Get(payload, "data")
    case Some(v) => if Truthy(v) then v else JObj([])
    case None => JObj([])
  }

  /** `payload?.timestamp || new Date().toISOString()`, with the clock reading `now`. */
  function TimestampOf(payload: Json, now: string): (t: Json)
    ensures Truthy(t) || t == JStr(now)
    ensures t == JStr(now) || Get(payload, "timestamp") == Some(t)
    ensures match Get(payload, "timestamp")
            case Some(v) => Truthy(v) ==> t == v
            case None => true
  {
    match Get(payload, "timestamp")
    case Some(v) => if Truthy(v) then v else JStr(now)
    case None => JStr(now)
  }

  /** The event name when the payload carries it as a string. */
  function EventName(payload: Json): Option<string> {
    match Get(payload, "event")
    case Some(JStr(s)) => Some(s)
    case _ => None
  }

  /** `${data?.delivery_id ?? ''}` */
  function IdText(data: Json): string
    requires PrintableField(Get(data, "delivery_id"))
  {
    InterpolateOrEmpty(Get(data, "delivery_id"))
  }

  /** The fields of `data` that the event's message template converts to text. */
  function PrintedFields(payload: Json): set<string> {
    match EventName(payload)
    case Some("delivery_status_changed") => {"delivery_id", "status"}
    case Some(e) => if e in {"delivery_created", "delivery_assigned", "delivery_cancelled"} then {"delivery_id"} else {}
    case None => {}
  }

  /** `mapToClientNotification(payload)` throws: a field its template prints is an
      object that cannot be converted to text. */
  predicate Throws(payload: Json) {
    exists f :: f in PrintedFields(payload) && !PrintableField(Get(DataOf(payload), f))
  }

  /** `mapToClientNotification(payload)`, `None` where it throws. A falsy or missing
      `event`, and any event other than the four known ones (including one that is
      not a string), give the generic `status_update` "Notification reçue". */
  function MapToClientNotification(payload: Json, now: string): (r: Option<ClientNotification>)
    ensures r.None? <==> Throws(payload)
    ensures r.Some? ==> r.value.kind in {NewDelivery, Assignment, StatusUpdate}
    ensures r.Some? ==> r.value.delivery == DataOf(payload) && r.value.timestamp == TimestampOf(payload, now)
  {
    var data := DataOf(payload);
    var timestamp := TimestampOf(payload, now);
    var id := Get(data, "delivery_id");
    match EventName(payload)
    case Some("delivery_created") =>
      if !PrintableField(id) then None
      else Some(ClientNotification(NewDelivery, "Nouvelle livraison #" + IdText(data) + " créée", data, timestamp))
    case Some("delivery_assigned") =>
      if !PrintableField(id) then None
      else Some(ClientNotification(Assignment, "Livraison #" + IdText(data) + " assignée", data, timestamp))
    case Some("delivery_status_changed") =>
      var status := Get(data, "status");
      if !PrintableField(id) || !PrintableField(status) then None
      else Some(ClientNotification(StatusUpdate,
                  "Statut de la livraison #" + IdText(data) + " mis à jour: " + InterpolateOrEmpty(status),
                  data, timestamp))
    case Some("delivery_cancelled") =>
      if !PrintableField(id) then None
      else Some(ClientNotification(StatusUpdate, "Livraison #" + IdText(data) + " annulée", data, timestamp))
    case _ =>
      Some(ClientNotification(StatusUpdate, "Notification reçue", data, timestamp))
  }

  /** A missing or falsy `event` (`!event`) gives the generic notification, and
      nothing is converted, so nothing can throw. */
  lemma FalsyEventIsGeneric(payload: Json, now: string)
    requires Get(payload, "event").None? || !Truthy(Get(payload, "event").value)
    ensures MapToClientNotification(payload, now).Some?
    ensures MapToClientNotification(payload, now).value.kind == StatusUpdate
    ensures MapToClientNotification(payload, now).value.message == "Notification reçue"
  {
  }

  /** `delivery_created` announces a new delivery; a null or absent id prints as
      nothing, and an id that cannot be converted makes the mapping throw. */
  lemma CreatedEvent(payload: Json, now: string)
    requires EventName(payload) == Some("delivery_created")
    ensures MapToClientNotification(payload, now).None? <==> !PrintableField(Get(DataOf(payload), "delivery_id"))
    ensures PrintableField(Get(DataOf(payload), "delivery_id")) ==>
              MapToClientNotification(payload, now).value.kind == NewDelivery &&
              MapToClientNotification(payload, now).value.message == "Nouvelle livraison #" + IdText(DataOf(payload)) + " créée"
    ensures Get(DataOf(payload), "delivery_id") in {None, Some(JNull)} ==>
              MapToClientNotification(payload, now).value.message == "Nouvelle livraison # créée"
  {
  }

  lemma AssignedEvent(payload: Json, now: string)
    requires EventName(payload) == Some("delivery_assigned")
    ensures MapToClientNotification(payload, now).None? <==> !PrintableField(Get(DataOf(payload), "delivery_id"))
    ensures PrintableField(Get(DataOf(payload), "delivery_id")) ==>
              MapToClientNotification(payload, now).value.kind == Assignment &&
              MapToClientNotification(payload, now).value.message == "Livraison #" + IdText(DataOf(payload)) + " assignée"
  {
  }

  /** `delivery_status_changed` prints both the id and the status; either one that
      cannot be converted makes the mapping throw. */
  lemma StatusChangedEvent(payload: Json, now: string)
    requires EventName(payload) == Some("delivery_status_changed")
    ensures MapToClientNotification(payload, now).None? <==>
              !PrintableField(Get(DataOf(payload), "delivery_id")) || !PrintableField(Get(DataOf(payload), "status"))
    ensures PrintableField(Get(DataOf(payload), "delivery_id")) && PrintableField(Get(DataOf(payload), "status")) ==>
              MapToClientNotification(payload, now).value.kind == StatusUpdate &&
              MapToClientNotification(payload, now).value.message ==
                "Statut de la livraison #" + IdText(DataOf(payload)) + " mis à jour: "
                + InterpolateOrEmpty(Get(DataOf(payload), "status"))
  {
  }

  const KnownEvents: set<string> := {"delivery_created", "delivery_assigned", "delivery_status_changed", "delivery_cancelled"}

  /** `delivery_cancelled` is a status update; every other event, and an event that
      is not a string, falls back to the generic notification, which never throws. */
  lemma CancelledOrOtherEvent(payload: Json, now: string)
    ensures EventName(payload) == Some("delivery_cancelled") ==>
              (MapToClientNotification(payload, now).None? <==> !PrintableField(Get(DataOf(payload), "delivery_id")))
    ensures EventName(payload) == Some("delivery_cancelled") && PrintableField(Get(DataOf(payload), "delivery_id")) ==>
              MapToClientNotification(payload, now).value.kind == StatusUpdate &&
              MapToClientNotification(payload, now).value.message == "Livraison #" + IdText(DataOf(payload)) + " annulée"
    ensures EventName(payload).None? || EventName(payload).value !in KnownEvents ==>
              MapToClientNotification(payload, now).Some? &&
              MapToClientNotification(payload, now).value.kind == StatusUpdate &&
              MapToClientNotification(payload, now).value.message == "Notification reçue"
  {
  }

  /** The kind depends on the event alone, never on the data or the timestamp. */
  lemma KindFollowsEvent(p: Json, q: Json, now: string, later: string)
    requires EventName(p) == EventName(q)
    ensures MapToClientNotification(p, now).Some? && MapToClientNotification(q, later).Some? ==>
              MapToClientNotification(p, now).value.kind == MapToClientNotification(q, later).value.kind
  {
    var e := EventName(p);
    var kind := if e == Some("delivery_created") then NewDelivery
                else if e == Some("delivery_assigned") then Assignment
                else StatusUpdate;
    EventKind(p, now, kind);
    EventKind(q, later, kind);
  }

  /** The kind each event name gives, one event at a time. */
  lemma EventKind(p: Json, now: string, kind: string)
    requires kind == if EventName(p) == Some("delivery_created") then NewDelivery
                     else if EventName(p) == Some("delivery_assigned") then Assignment
                     else StatusUpdate
    ensures MapToClientNotification(p, now).Some? ==> MapToClientNotification(p, now).value.kind == kind
  {
    var e := EventName(p);
    if e == Some("delivery_created") {
    } else if e == Some("delivery_assigned") {
    } else if e == Some("delivery_status_changed") {
    } else if e == Some("delivery_cancelled") {
    } else {
      CancelledOrOtherEvent(p, now);
    }
  }

  /** The id and status of `{"delivery_id":7,"status":"livre"}` as the template prints them. */
  lemma SevenLivreFields()
    ensures var data := JObj([("delivery_id", JNum(7)), ("status", JStr("livre"))]);
            PrintableField(Get(data, "delivery_id")) && PrintableField(Get(data, "status")) &&
            IdText(data) == "7" && InterpolateOrEmpty(Get(data, "status")) == "livre"
  {
    var data := JObj([("delivery_id", JNum(7)), ("status", JStr("livre"))]);
    LookupMember(data.members, 0);
    LookupMember(data.members, 1);
    assert Digits(7) == "7";
  }

  /** The message text for `{"delivery_id":7,"status":"livre"}`. */
  lemma SevenLivreMessage()
    ensures var data := JObj([("delivery_id", JNum(7)), ("status", JStr("livre"))]);
            PrintableField(Get(data, "delivery_id")) && PrintableField(Get(data, "status")) &&
            "Statut de la livraison #" + IdText(data) + " mis à jour: " + InterpolateOrEmpty(Get(data, "status"))
            == "Statut de la livraison #7 mis à jour: livre"
  {
    SevenLivreFields();
    assert "Statut de la livraison #" + "7" + " mis à jour: " + "livre" == "Statut de la livraison #7 mis à jour: livre";
  }

  /** `{"event":"delivery_status_changed","data":{"delivery_id":7,"status":"livre"}}` */
  lemma StatusChangedExample(now: string)
    ensures var payload := JObj([("event", JStr("delivery_status_changed")),
                                 ("data", JObj([("delivery_id", JNum(7)), ("status", JStr("livre"))]))]);
            var c := MapToClientNotification(payload, now);
            c.Some? && c.value.kind == StatusUpdate && c.value.message == "Statut de la livraison #7 mis à jour: livre"
            && c.value.timestamp == JStr(now)
  {
    var data := JObj([("delivery_id", JNum(7)), ("status", JStr("livre"))]);
    var payload := JObj([("event", JStr("delivery_status_changed")), ("data", data)]);
    LookupMember(payload.members, 0);
    LookupMember(payload.members, 1);
    assert EventName(payload) == Some("delivery_status_changed");
    assert DataOf(payload) == data;
    assert Get(payload, "timestamp").None?;
    SevenLivreMessage();
    StatusChangedEvent(payload, now);
  }

  const InvalidJson: Reply := TextReply(400, "Invalid JSON")
  const Accepted: Reply := JsonReply(200, JObj([("ok", JBool(true))]))

  /** What `POST` does with the parsed body (`None` when `req.json()` rejected).
      The mapping runs outside the `try`, so when it throws the handler's promise
      rejects and nothing is broadcast. */
  function Handle(body: Option<Json>, now: string): (o: Outcome)
    ensures o.reply in {InvalidJson, Unhandled, Accepted}
    ensures o.reply == InvalidJson <==> body.None? || !Truthy(body.value)
    ensures o.reply == Unhandled <==> body.Some? && Truthy(body.value) && Throws(body.value)
    ensures o.publish.Some? <==> o.reply == Accepted
    ensures o.publish.Some? ==> o.publish == Some(ToJson(MapToClientNotification(body.value, now).value))
  {
    if body.None? || !Truthy(body.value) then Outcome(InvalidJson, None)
    else match MapToClientNotification(body.value, now)
      case None => Outcome(Unhandled, None)
      case Some(c) => Outcome(Accepted, Some(ToJson(c)))
  }

  /** The fields of `{"event":"delivery_created","data":{"delivery_id":{"toString":0}}}`. */
  lemma UnprintableIdFields()
    ensures var data := JObj([("delivery_id", JObj([("toString", JNum(0))]))]);
            var payload := JObj([("event", JStr("delivery_created")), ("data", data)]);
            Truthy(payload) && EventName(payload) == Some("delivery_created") && DataOf(payload) == data &&
            !PrintableField(Get(data, "delivery_id"))
  {
    var id := JObj([("toString", JNum(0))]);
    var data := JObj([("delivery_id", id)]);
    var payload := JObj([("event", JStr("delivery_created")), ("data", data)]);
    LookupMember(payload.members, 0);
    LookupMember(payload.members, 1);
    LookupMember(data.members, 0);
    LookupMember(id.members, 0);
  }

  /** That payload: printing the id throws, so the sender gets no `{ok:true}` and
      nothing is published. */
  lemma UnprintableIdIsUnhandled(now: string)
    ensures var payload := JObj([("event", JStr("delivery_created")),
                                 ("data", JObj([("delivery_id", JObj([("toString", JNum(0))]))]))]);
            Handle(Some(payload), now) == Outcome(Unhandled, None)
  {
    var data := JObj([("delivery_id", JObj([("toString", JNum(0))]))]);
    var payload := JObj([("event", JStr("delivery_created")), ("data", data)]);
    UnprintableIdFields();
    assert "delivery_id" in PrintedFields(payload);
    assert Throws(payload);
  }

  /** `POST`: reply as Handle says, broadcasting its notification when there is one. */
  method Post(registry: Relay.Registry, body: Option<Json>, now: string) returns (reply: Reply)
    modifies registry, registry.clients
    ensures reply == Handle(body, now).reply
    ensures Handle(body, now).publish.None? ==>
              registry.clients == old(registry.clients) &&
              forall c :: c in old(registry.clients) ==> c.open == old(c.open) && c.chunks == old(c.chunks)
    ensures Handle(body, now).publish.Some? ==>
              (forall c :: c in registry.clients <==> c in old(registry.clients) && old(c.open)) &&
              forall c :: c in old(registry.clients) ==>
                c.open == old(c.open) &&
                c.chunks == if old(c.open) then old(c.chunks) + [Relay.EventStream.Frame(Handle(body, now).publish.value)]
                            else old(c.chunks)
  {
    var outcome := Handle(body, now);
    if outcome.publish.Some? {
      registry.BroadcastToClients(outcome.publish.value);
    }
    reply := outcome.reply;
  }
}
