/** The consumer side, `src/app/hooks/useNotifications.ts`: what the `onmessage`
    handler does with one message, as the list of effects it causes. */
module NotificationHook {
  import opened Wrappers
  import opened Json
  import opened Ingress

  /** The state of `audioRef.current` when a message arrives: absent, present and
      allowed to play, or present and refused by the browser's autoplay policy. */
  datatype Audio = NoAudio | Plays | Rejects

  datatype Effect =
    | PlaySound
    | Toast(text: Option<Json>, durationMs: nat, icon: string)
    | LogError

  const PackageIcon: string := "\U{1F4E6}"
  const CycleIcon: string := "\U{1F504}"
  const PersonIcon: string := "\U{1F464}"

  /** The toasts among the effects, in order. */
  function Toasts(effects: seq<Effect>): (r: seq<Effect>)
    ensures |r| <= |effects|
    ensures forall i :: 0 <= i < |r| ==> r[i].Toast? && r[i] in effects
  {
    if effects == [] then []
    else (if effects[0].Toast? then [effects[0]] else []) + Toasts(effects[1..])
  }

  /** `playNotificationSound()`: the attempt, when there is an audio element. */
  function SoundAttempt(audio: Audio): seq<Effect> {
    if audio == NoAudio then [] else [PlaySound]
  }

  /** The `.catch(console.error)` of a refused `play()`: it runs after the handler
      has returned, so after the toast. */
  function SoundRejection(audio: Audio): seq<Effect> {
    if audio == Rejects then [LogError] else []
  }

  /** `onmessage` for a message whose `event.data` parsed to `parsed` (`None` when
      `JSON.parse` threw). A parse failure, or a `null` message whose `.type` throws,
      is caught and logged; a known `type` gives one toast carrying the message's
      `message` as it is, and a sound attempt for `new_delivery` only; any other
      `type` does nothing. */
  function OnMessage(parsed: Option<Json>, audio: Audio): (effects: seq<Effect>)
    ensures parsed.None? || parsed == Some(JNull) ==> effects == [LogError]
    ensures PlaySound in effects <==>
              parsed.Some? && Get(parsed.value, "type") == Some(JStr(NewDelivery)) && audio != NoAudio
  {
    if parsed.None? || parsed.value.JNull? then [LogError]
    else
      var text := Get(parsed.value, "message");
      var kind := Get(parsed.value, "type");
      if kind == Some(JStr(NewDelivery)) then
        SoundAttempt(audio) + [Toast(text, 5000, PackageIcon)] + SoundRejection(audio)
      else if kind == Some(JStr(StatusUpdate)) then [Toast(text, 4000, CycleIcon)]
      else if kind == Some(JStr(Assignment)) then [Toast(text, 4000, PersonIcon)]
      else []
  }

  /** The kind of a message, when it is one the handler recognises. */
  predicate HasKnownKind(n: Json) {
    Get(n, "type") in {Some(JStr(NewDelivery)), Some(JStr(StatusUpdate)), Some(JStr(Assignment))}
  }

  /** The effects of each recognised kind, with an audio element that plays:
      `new_delivery` plays the sound and shows a 5-second toast with a package;
      `status_update` and `assignment` show a 4-second toast without sound. */
  lemma KindEffects(n: Json)
    requires n != JNull
    ensures Get(n, "type") == Some(JStr(NewDelivery)) ==>
              OnMessage(Some(n), Plays) == [PlaySound, Toast(Get(n, "message"), 5000, PackageIcon)]
    ensures Get(n, "type") == Some(JStr(StatusUpdate)) ==>
              OnMessage(Some(n), Plays) == [Toast(Get(n, "message"), 4000, CycleIcon)]
    ensures Get(n, "type") == Some(JStr(Assignment)) ==>
              OnMessage(Some(n), Plays) == [Toast(Get(n, "message"), 4000, PersonIcon)]
  {
  }

  /** A recognised kind gives exactly one toast, with the message's text verbatim. */
  lemma KnownKindToasts(n: Json, audio: Audio)
    requires HasKnownKind(n)
    ensures Toasts(OnMessage(Some(n), audio)) == [Toast(Get(n, "message"), Duration(n), Icon(n))]
  {
    var text := Get(n, "message");
    if Get(n, "type") == Some(JStr(NewDelivery)) {
      ToastsConcat(SoundAttempt(audio) + [Toast(text, 5000, PackageIcon)], SoundRejection(audio));
      ToastsConcat(SoundAttempt(audio), [Toast(text, 5000, PackageIcon)]);
    }
  }

  function Duration(n: Json): nat {
    if Get(n, "type") == Some(JStr(NewDelivery)) then 5000 else 4000
  }

  function Icon(n: Json): string {
    if Get(n, "type") == Some(JStr(NewDelivery)) then PackageIcon
    else if Get(n, "type") == Some(JStr(StatusUpdate)) then CycleIcon
    else PersonIcon
  }

  lemma {:induction false} ToastsConcat(a: seq<Effect>, b: seq<Effect>)
    ensures Toasts(a + b) == Toasts(a) + Toasts(b)
  {
    if a == [] {
      assert a + b == b;
    } else {
      assert (a + b)[0] == a[0];
      assert (a + b)[1..] == a[1..] + b;
      ToastsConcat(a[1..], b);
    }
  }

  /** Any parsed message whose `type` is not one of the three known kinds (the
      other webhook's `info`, the stream's `hello`, a missing or non-string `type`)
      causes no effect at all: no toast, no sound, no log. */
  lemma UnknownKindIsInert(n: Json, audio: Audio)
    requires n != JNull && !HasKnownKind(n)
    ensures OnMessage(Some(n), audio) == []
  {
  }

  /** The welcome record of the stream channel, `{type: 'hello', message: 'stream connected'}`. */
  const Hello: Json := JObj([("type", JStr("hello")), ("message", JStr("stream connected"))])

  lemma HelloIsInert(audio: Audio)
    ensures OnMessage(Some(Hello), audio) == []
  {
    LookupMember(Hello.members, 0);
    UnknownKindIsInert(Hello, audio);
  }

  /** Whatever arrives, the handler shows at most one toast and never throws: a
      parse failure is only logged. */
  lemma AtMostOneToast(parsed: Option<Json>, audio: Audio)
    ensures |Toasts(OnMessage(parsed, audio))| == if parsed.Some? && HasKnownKind(parsed.value) then 1 else 0
  {
    if parsed.Some? && HasKnownKind(parsed.value) {
      KnownKindToasts(parsed.value, audio);
    } else if parsed.Some? && parsed.value != JNull {
      UnknownKindIsInert(parsed.value, audio);
    }
  }

  /** Everything but the logged errors. */
  function Visible(effects: seq<Effect>): (r: seq<Effect>)
    ensures LogError !in r
  {
    if effects == [] then []
    else (if effects[0] == LogError then [] else [effects[0]]) + Visible(effects[1..])
  }

  lemma {:induction false} VisibleConcat(a: seq<Effect>, b: seq<Effect>)
    ensures Visible(a + b) == Visible(a) + Visible(b)
  {
    if a == [] {
      assert a + b == b;
    } else {
      var head := if a[0] == LogError then [] else [a[0]];
      assert (a + b)[0] == a[0];
      assert (a + b)[1..] == a[1..] + b;
      VisibleConcat(a[1..], b);
      assert Visible(a + b) == head + Visible(a[1..] + b);
      assert Visible(a) == head + Visible(a[1..]);
    }
  }

  /** A refused playback only adds a logged error, after the toast: the sound
      attempt and the toast are the same as when playback succeeds. */
  lemma RejectedSoundKeepsToast(parsed: Option<Json>)
    ensures Visible(OnMessage(parsed, Rejects)) == Visible(OnMessage(parsed, Plays))
    ensures OnMessage(parsed, Rejects) == OnMessage(parsed, Plays)
              + (if parsed.Some? && Get(parsed.value, "type") == Some(JStr(NewDelivery)) then [LogError] else [])
  {
    if parsed.Some? && Get(parsed.value, "type") == Some(JStr(NewDelivery)) {
      var text := Get(parsed.value, "message");
      var shown := [PlaySound, Toast(text, 5000, PackageIcon)];
      assert OnMessage(parsed, Plays) == shown + [];
      assert OnMessage(parsed, Rejects) == shown + [LogError];
      VisibleConcat(shown, [LogError]);
      VisibleConcat(shown, []);
    } else {
      assert OnMessage(parsed, Rejects) == OnMessage(parsed, Plays);
      assert OnMessage(parsed, Plays) + [] == OnMessage(parsed, Plays);
    }
  }

  /** The handler applied to each received event's data in turn, with `parse`
      standing for `JSON.parse` (`None` where it throws). */
  function OnMessages(events: seq<string>, parse: string -> Option<Json>, audio: Audio): seq<Effect> {
    if events == [] then []
    else OnMessage(parse(events[0]), audio) + OnMessages(events[1..], parse, audio)
  }
}
