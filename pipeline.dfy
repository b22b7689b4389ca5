/** The relay end to end: what the consumer does with what either webhook
    publishes, and with what arrives over the event stream. */
module Pipeline {
  import opened Wrappers
  import opened Json
  import opened Ingress
  import opened EventStream
  import opened NotificationHook
  import DeliveryWebhook
  import DeliveriesWebhook

  /** Every notification the `{event, data}` webhook publishes is one the consumer
      recognises: it is shown as exactly one toast with its message. */
  lemma DeliveryWebhookAlwaysShown(body: Option<Json>, now: string, audio: Audio)
    ensures var o := DeliveryWebhook.Handle(body, now);
            o.publish.Some? ==>
              var effects := OnMessage(o.publish, audio);
              |Toasts(effects)| == 1 && Toasts(effects)[0].text == Get(o.publish.value, "message")
  {
    var o := DeliveryWebhook.Handle(body, now);
    if o.publish.Some? {
      KnownKindToasts(o.publish.value, audio);
    }
  }

  /** A notification the `{delivery, action}` webhook publishes is shown as one
      toast with its message when the action is `created`, `status_updated` or
      `assigned`; for any other action its `info` type makes the consumer do nothing. */
  lemma DeliveriesWebhookShownUnlessInfo(body: Option<Json>, now: string, audio: Audio)
    ensures var o := DeliveriesWebhook.Handle(body, now);
            o.publish.Some? ==>
              var n := o.publish.value;
              var effects := OnMessage(o.publish, audio);
              if Get(n, "type") == Some(JStr(Info)) then effects == []
              else |Toasts(effects)| == 1 && Toasts(effects)[0].text == Get(n, "message")
  {
    var o := DeliveriesWebhook.Handle(body, now);
    if o.publish.Some? {
      var b := body.value;
      var delivery := Get(b, "delivery").value;
      var r := DeliveriesWebhook.Classify(Get(b, "action"), delivery).value;
      var n := o.publish.value;
      assert n == DeliveriesWebhook.NotificationJson(r.0, delivery, r.1, now);
      if r.0 == Info {
        UnknownKindIsInert(n, audio);
      } else {
        KnownKindToasts(n, audio);
      }
    }
  }

  /** The effects of the notification records of a stream, in order. */
  function Reactions(rs: seq<Record>, audio: Audio): seq<Effect> {
    if rs == [] then []
    else (if rs[0].Ping? then [] else OnMessage(Some(rs[0].n), audio)) + Reactions(rs[1..], audio)
  }

  lemma {:induction false} OnMessagesConcat(a: seq<string>, b: seq<string>, parse: string -> Option<Json>, audio: Audio)
    ensures OnMessages(a + b, parse, audio) == OnMessages(a, parse, audio) + OnMessages(b, parse, audio)
  {
    if a == [] {
      assert a + b == b;
    } else {
      assert (a + b)[0] == a[0];
      assert (a + b)[1..] == a[1..] + b;
      OnMessagesConcat(a[1..], b, parse, audio);
    }
  }

  /** Over the wire, with a `JSON.parse` that reads back what `JSON.stringify`
      wrote, the consumer reacts to each published notification once and in order,
      and to the keep-alive records not at all. */
  lemma {:induction false} StreamReactions(rs: seq<Record>, parse: string -> Option<Json>, audio: Audio)
    requires forall i :: 0 <= i < |rs| && rs[i].Notification? ==> parse(Stringify(rs[i].n)) == Some(rs[i].n)
    ensures OnMessages(Events(Encode(rs)), parse, audio) == Reactions(rs, audio)
  {
    EncodeRoundTrip(rs);
    PayloadReactions(rs, parse, audio);
  }

  lemma {:induction false} PayloadReactions(rs: seq<Record>, parse: string -> Option<Json>, audio: Audio)
    requires forall i :: 0 <= i < |rs| && rs[i].Notification? ==> parse(Stringify(rs[i].n)) == Some(rs[i].n)
    ensures OnMessages(Payloads(rs), parse, audio) == Reactions(rs, audio)
  {
    if rs != [] {
      PayloadReactions(rs[1..], parse, audio);
      var head := if rs[0].Ping? then [] else [Stringify(rs[0].n)];
      OnMessagesConcat(head, Payloads(rs[1..]), parse, audio);
      if rs[0].Notification? {
        assert OnMessages(head, parse, audio) == OnMessage(Some(rs[0].n), audio) + OnMessages([], parse, audio);
      }
    }
  }

  /** A consumer that receives only keep-alive records shows, plays and logs nothing. */
  lemma KeepAlivesCauseNothing(rs: seq<Record>, parse: string -> Option<Json>, audio: Audio)
    requires forall i :: 0 <= i < |rs| ==> rs[i].Ping?
    ensures OnMessages(Events(Encode(rs)), parse, audio) == []
  {
    KeepAlivesOnlyAreSilent(rs);
  }
}
