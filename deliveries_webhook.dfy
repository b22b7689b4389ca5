/** The `{delivery, action}` webhook, `src/app/api/webhook/deliveries/route.ts`:
    payload validation, the `action` switch and the notification it broadcasts. */
module DeliveriesWebhook {
  import opened Wrappers
  import opened Json
  import opened Ingress
  import Relay

  /** `${delivery.id}`: an absent id prints as `undefined`. */
  function IdText(delivery: Json): string
    requires PrintableField(Get(delivery, "id"))
  {
    Interpolate(Get(delivery, "id"))
  }

  /** The action when the payload carries it as a string. */
  function ActionName(action: Option<Json>): Option<string> {
    match action
    case Some(JStr(s)) => Some(s)
    case _ => None
  }

  /** Whether `delivery.description` is truthy, so that `created` prints it
      instead of the id. */
  predicate HasDescription(delivery: Json) {
    Get(delivery, "description").Some? && Truthy(Get(delivery, "description").value)
  }

  /** The fields of `delivery` that the action's message template converts to text. */
  function PrintedFields(action: Option<Json>, delivery: Json): set<string> {
    match ActionName(action)
    case Some("created") => if HasDescription(delivery) then {"description"} else {"id"}
    case Some("status_updated") => {"statut", "id"}
    case _ => {"id"}
  }

  /** Building the message throws: a field its template prints is an object that
      cannot be converted to text. */
  predicate Throws(action: Option<Json>, delivery: Json) {
    exists f :: f in PrintedFields(action, delivery) && !PrintableField(Get(delivery, f))
  }

  /** The `switch (action)`: the `type` and `message` of the notification, `None`
      where building the message throws. */
  function Classify(action: Option<Json>, delivery: Json): (r: Option<(string, string)>)
    ensures r.None? <==> Throws(action, delivery)
    ensures r.Some? ==> r.value.0 in {NewDelivery, StatusUpdate, Assignment, Info}
    ensures r.Some? ==> (r.value.0 == Info <==> ActionName(action) !in {Some("created"), Some("status_updated"), Some("assigned")})
  {
    var id := Get(delivery, "id");
    match ActionName(action)
    case Some("created") =>
      if HasDescription(delivery) then
        var description := Get(delivery, "description").value;
        if !Printable(description) then None
        else Some((NewDelivery, "Nouvelle livraison créée: " + ToText(description)))
      else if !PrintableField(id) then None
      else Some((NewDelivery, "Nouvelle livraison créée: " + ("Livraison #" + IdText(delivery))))
    case Some("status_updated") =>
      var statut := Get(delivery, "statut");
      if !PrintableField(statut) || !PrintableField(id) then None
      else Some((StatusUpdate, "Statut mis à jour: " + Interpolate(statut) + " pour la livraison #" + IdText(delivery)))
    case Some("assigned") =>
      if !PrintableField(id) then None
      else Some((Assignment, "Livraison #" + IdText(delivery) + " assignée à un livreur"))
    case _ =>
      if !PrintableField(id) then None
      else Some((Info, "Mise à jour pour la livraison #" + IdText(delivery)))
  }

  /** The object literal broadcast, members in the order the literal lists them; the
      timestamp is the clock reading `now`. */
  function NotificationJson(kind: string, delivery: Json, message: string, now: string): (j: Json)
    ensures Get(j, "type") == Some(JStr(kind))
    ensures Get(j, "delivery") == Some(delivery)
    ensures Get(j, "message") == Some(JStr(message))
    ensures Get(j, "timestamp") == Some(JStr(now))
  {
    var members := [("type", JStr(kind)), ("delivery", delivery), ("message", JStr(message)), ("timestamp", JStr(now))];
    LookupMember(members, 0);
    LookupMember(members, 1);
    LookupMember(members, 2);
    LookupMember(members, 3);
    JObj(members)
  }

  const InternalError: Reply := JsonReply(500, JObj([("error", JStr("Internal server error"))]))
  const InvalidPayload: Reply := JsonReply(400, JObj([("error", JStr("Invalid payload"))]))
  const Sent: Reply := JsonReply(200, JObj([("success", JBool(true)), ("message", JStr("Notification sent"))]))

  /** The body passes validation: it is not `null` (whose `.delivery` throws) and
      its `delivery` is truthy. */
  predicate Valid(body: Json) {
    body != JNull && Get(body, "delivery").Some? && Truthy(Get(body, "delivery").value)
  }

  /** What `POST` does with the parsed body (`None` when `request.json()` threw).
      Invalid JSON, a `null` body whose `.delivery` throws, and a message template
      that throws all reach the catch and give 500; a falsy `delivery` gives 400;
      everything else is broadcast. */
  function Handle(body: Option<Json>, now: string): (o: Outcome)
    ensures o.reply in {InternalError, InvalidPayload, Sent}
    ensures o.reply == InternalError <==>
              body.None? || body == Some(JNull) ||
              (Valid(body.value) && Throws(Get(body.value, "action"), Get(body.value, "delivery").value))
    ensures o.reply == InvalidPayload <==>
              body.Some? && body.value != JNull &&
              (Get(body.value, "delivery").None? || !Truthy(Get(body.value, "delivery").value))
    ensures o.publish.Some? <==> o.reply == Sent
  {
    match body
    case None => Outcome(InternalError, None)
    case Some(JNull) => Outcome(InternalError, None)
    case Some(b) =>
      match Get(b, "delivery")
      case None => Outcome(InvalidPayload, None)
      case Some(delivery) =>
        if !Truthy(delivery) then Outcome(InvalidPayload, None)
        else match Classify(Get(b, "action"), delivery)
          case None => Outcome(InternalError, None)
          case Some((kind, message)) => Outcome(Sent, Some(NotificationJson(kind, delivery, message, now)))
  }

  /** `created` announces a new delivery, by its description when that is truthy
      and by its id otherwise; only the one printed can make it throw. */
  lemma CreatedAction(action: Option<Json>, delivery: Json)
    requires ActionName(action) == Some("created")
    ensures HasDescription(delivery) ==>
              (Classify(action, delivery).None? <==> !Printable(Get(delivery, "description").value))
    ensures !HasDescription(delivery) ==>
              (Classify(action, delivery).None? <==> !PrintableField(Get(delivery, "id")))
    ensures Classify(action, delivery).Some? ==>
              Classify(action, delivery).value.0 == NewDelivery &&
              Classify(action, delivery).value.1 ==
                "Nouvelle livraison créée: " +
                if HasDescription(delivery) then ToText(Get(delivery, "description").value)
                else "Livraison #" + IdText(delivery)
  {
  }

  lemma StatusUpdatedAction(action: Option<Json>, delivery: Json)
    requires ActionName(action) == Some("status_updated")
    ensures Classify(action, delivery).None? <==>
              !PrintableField(Get(delivery, "statut")) || !PrintableField(Get(delivery, "id"))
    ensures Classify(action, delivery).Some? ==>
              Classify(action, delivery).value ==
                (StatusUpdate, "Statut mis à jour: " + Interpolate(Get(delivery, "statut")) + " pour la livraison #" + IdText(delivery))
  {
  }

  lemma AssignedAction(action: Option<Json>, delivery: Json)
    requires ActionName(action) == Some("assigned")
    ensures Classify(action, delivery).None? <==> !PrintableField(Get(delivery, "id"))
    ensures Classify(action, delivery).Some? ==>
              Classify(action, delivery).value == (Assignment, "Livraison #" + IdText(delivery) + " assignée à un livreur")
  {
  }

  /** Any other action, a missing one or one that is not a string, is `info`. */
  lemma OtherActionIsInfo(action: Option<Json>, delivery: Json)
    requires ActionName(action) !in {Some("created"), Some("status_updated"), Some("assigned")}
    ensures Classify(action, delivery).None? <==> !PrintableField(Get(delivery, "id"))
    ensures Classify(action, delivery).Some? ==>
              Classify(action, delivery).value == (Info, "Mise à jour pour la livraison #" + IdText(delivery))
  {
  }

  /** A valid body is answered `Notification sent` exactly when its message can be
      built, and the notification then carries the sender's `delivery` unchanged,
      the classified type and message, and the clock reading as its timestamp;
      otherwise it is answered 500 and nothing is broadcast. */
  lemma PublishedNotification(body: Json, now: string)
    requires Valid(body)
    ensures var r := Classify(Get(body, "action"), Get(body, "delivery").value);
            r.None? ==> Handle(Some(body), now) == Outcome(InternalError, None)
    ensures var r := Classify(Get(body, "action"), Get(body, "delivery").value);
            r.Some? ==>
              var n := Handle(Some(body), now).publish.value;
              Handle(Some(body), now).reply == Sent &&
              Get(n, "delivery") == Get(body, "delivery") &&
              Get(n, "type") == Some(JStr(r.value.0)) && Get(n, "message") == Some(JStr(r.value.1)) &&
              Get(n, "timestamp") == Some(JStr(now))
  {
  }

  /** `String(42)` */
  lemma FortyTwo()
    ensures Decimal(42) == "42"
  {
    assert Digits(4) == "4";
    assert Digits(42) == Digits(4) + ['2'];
  }

  /** `{"id":42}` has no description, and its id prints as `42`. */
  lemma FortyTwoFields()
    ensures var delivery := JObj([("id", JNum(42))]);
            !HasDescription(delivery) && PrintableField(Get(delivery, "id")) && IdText(delivery) == "42"
  {
    var delivery := JObj([("id", JNum(42))]);
    LookupMember(delivery.members, 0);
    assert Get(delivery, "description").None?;
    FortyTwo();
  }

  /** A delivery `{"id":42}` without a description, created. */
  lemma CreatedByIdMessage()
    ensures Classify(Some(JStr("created")), JObj([("id", JNum(42))]))
         == Some((NewDelivery, "Nouvelle livraison créée: Livraison #42"))
  {
    var delivery := JObj([("id", JNum(42))]);
    FortyTwoFields();
    var r := Classify(Some(JStr("created")), delivery).value;
    assert r.1 == "Nouvelle livraison créée: " + ("Livraison #" + "42");
    assert "Nouvelle livraison créée: " + ("Livraison #" + "42") == "Nouvelle livraison créée: Livraison #42";
  }

  /** `{"delivery":{"id":42},"action":"created"}` */
  lemma CreatedExample(now: string)
    ensures var body := JObj([("delivery", JObj([("id", JNum(42))])), ("action", JStr("created"))]);
            var o := Handle(Some(body), now);
            o.reply == Sent && o.publish.Some? &&
            Get(o.publish.value, "type") == Some(JStr(NewDelivery)) &&
            Get(o.publish.value, "message") == Some(JStr("Nouvelle livraison créée: Livraison #42"))
  {
    var delivery := JObj([("id", JNum(42))]);
    var body := JObj([("delivery", delivery), ("action", JStr("created"))]);
    LookupMember(body.members, 0);
    LookupMember(body.members, 1);
    assert Get(body, "delivery") == Some(delivery) && Truthy(delivery);
    assert Get(body, "action") == Some(JStr("created"));
    CreatedByIdMessage();
    var message := "Nouvelle livraison créée: Livraison #42";
    var n := NotificationJson(NewDelivery, delivery, message, now);
    assert Handle(Some(body), now) == Outcome(Sent, Some(n));
  }

  /** `{"delivery":{"id":{"toString":0}},"action":"assigned"}`: printing the id
      throws inside the `try`, so the sender gets 500 and nothing is broadcast. */
  lemma UnprintableIdIsInternalError(now: string)
    ensures var body := JObj([("delivery", JObj([("id", JObj([("toString", JNum(0))]))])), ("action", JStr("assigned"))]);
            Handle(Some(body), now) == Outcome(InternalError, None)
  {
    var id := JObj([("toString", JNum(0))]);
    var delivery := JObj([("id", id)]);
    var body := JObj([("delivery", delivery), ("action", JStr("assigned"))]);
    LookupMember(body.members, 0);
    LookupMember(body.members, 1);
    LookupMember(delivery.members, 0);
    LookupMember(id.members, 0);
    assert Valid(body);
    AssignedAction(Get(body, "action"), delivery);
  }

  /** `POST`: reply as Handle says, broadcasting its notification when there is one. */
  method Post(registry: Relay.Registry, body: Option<Json>, now: string) returns (reply: Reply)
    modifies registry, registry.clients
    ensures reply == Handle(body, now).reply
    ensures Handle(body, now).publish.None? ==>
              registry.clients == old(registry.clients) &&
              forall c :: c in old(registry.clients) ==> c.open == old(c.open) && c.chunks == old(c.chunks)
    ensures Handle(body, now).publish.Some? ==>
              (forall c :: c in registry.clients <==> c in old(registry.clients) && old(c.open)) &&
              forall c :: c in old(registry.clients) ==>
                c.open == old(c.open) &&
                c.chunks == if old(c.open) then old(c.chunks) + [Relay.EventStream.Frame(Handle(body, now).publish.value)]
                            else old(c.chunks)
  {
    var outcome := Handle(body, now);
    if outcome.publish.Some? {
      registry.BroadcastToClients(outcome.publish.value);
    }
    reply := outcome.reply;
  }
}
