/** The Server-Sent Events wire format between the relay and the browser: the record
    the registry writes for each notification, the keep-alive comment record, and the
    part of the event-stream interpretation of section 9.2.6 of the WHATWG HTML Living
    Standard that such records exercise (data fields, comment lines, blank-line
    dispatch, discarding an unfinished event at the end of the stream). */
module EventStream {
  import opened Json

  /** The record `broadcastToClients` enqueues: `data: <json>\n\n`. */
  function Frame(n: Json): (r: string)
    ensures |r| >= 8 && r[..6] == "data: " && r[|r| - 2..] == "\n\n"
  {
    "data: " + Stringify(n) + "\n\n"
  }

  /** The keep-alive record the stream channel writes every 15 seconds. */
  const KeepAlive: string := ": keep-alive\n\n"

  /** Index of the first colon of a line, or its length when there is none. */
  function FieldEnd(line: string): (k: nat)
    ensures k <= |line|
    ensures forall i :: 0 <= i < k ==> line[i] != ':'
    ensures k < |line| ==> line[k] == ':'
  {
    if line == [] || line[0] == ':' then 0 else 1 + FieldEnd(line[1..])
  }

  /** The data buffer after one non-blank line: a comment (leading colon) changes
      nothing; a `data` field appends its value and a line feed; the value is what
      follows the first colon, less one leading space. Other fields (`event`, `id`,
      `retry`) do not touch the data buffer. */
  function ProcessLine(line: string, data: string): string
    requires line != []
  {
    if line[0] == ':' then data
    else
      var k := FieldEnd(line);
      var field := line[..k];
      var raw := if k < |line| then line[k + 1..] else "";
      var value := if raw != [] && raw[0] == ' ' then raw[1..] else raw;
      if field == "data" then data + value + "\n" else data
  }

  /** The `data` of every message event the stream dispatches, in order, given the
      unfinished line and the data buffer so far. A blank line dispatches when the
      buffer is not empty (without its last line feed) and resets it; the end of
      the stream discards whatever is unfinished. */
  function Interpret(s: string, line: string, data: string): seq<string>
    decreases |s|
  {
    if s == [] then []
    else if s[0] != '\n' then Interpret(s[1..], line + [s[0]], data)
    else if line != [] then Interpret(s[1..], [], ProcessLine(line, data))
    else if data == [] then Interpret(s[1..], [], [])
    else [data[..|data| - 1]] + Interpret(s[1..], [], [])
  }

  /** The events a whole stream carries. */
  function Events(s: string): seq<string> {
    Interpret(s, [], [])
  }

  /** Reading characters without a line feed only extends the current line. */
  lemma {:induction false} ReadLine(t: string, rest: string, line: string, data: string)
    requires forall i :: 0 <= i < |t| ==> t[i] != '\n'
    ensures Interpret(t + rest, line, data) == Interpret(rest, line + t, data)
    decreases |t|
  {
    if t == [] {
      assert t + rest == rest && line + t == line;
    } else {
      assert (t + rest)[0] == t[0];
      assert (t + rest)[1..] == t[1..] + rest;
      ReadLine(t[1..], rest, line + [t[0]], data);
      assert line + [t[0]] + t[1..] == line + t;
    }
  }

  /** A line feed ending a non-blank line hands that line to ProcessLine. */
  lemma EndOfLine(rest: string, line: string, data: string)
    requires line != []
    ensures Interpret("\n" + rest, line, data) == Interpret(rest, [], ProcessLine(line, data))
  {
    assert ("\n" + rest)[1..] == rest;
  }

  /** A blank line with a non-empty buffer dispatches one event. */
  lemma BlankLine(rest: string, data: string)
    ensures Interpret("\n" + rest, [], data)
         == (if data == [] then [] else [data[..|data| - 1]]) + Interpret(rest, [], [])
  {
    assert ("\n" + rest)[1..] == rest;
  }

  /** A `data: ` line puts its value, and a line feed, into the buffer. */
  lemma DataLine(value: string)
    ensures ProcessLine("data: " + value, []) == value + "\n"
  {
    var line := "data: " + value;
    assert line[0] != ':' && line[1] != ':' && line[2] != ':' && line[3] != ':';
    assert line[4] == ':';
    assert FieldEnd(line) == 4;
    assert line[..4] == "data";
    assert line[5..] == " " + value;
    assert line[5..][1..] == value;
  }

  /** A `data:` record whose value has no line feed dispatches exactly that value. */
  lemma DataRecordDispatchesOnce(json: string, rest: string)
    requires SingleLine(json)
    ensures Events("data: " + json + "\n\n" + rest) == [json] + Events(rest)
  {
    var line := "data: " + json;
    assert "data: " + json + "\n\n" + rest == line + ("\n" + ("\n" + rest));
    ReadLine(line, "\n" + ("\n" + rest), [], []);
    assert [] + line == line;
    EndOfLine("\n" + rest, line, []);
    DataLine(json);
    BlankLine(rest, json + "\n");
    assert (json + "\n")[..|json + "\n"| - 1] == json;
  }

  /** A notification record dispatches exactly one message event, whose data is the
      JSON text of the notification, and leaves the reader ready for the next record. */
  lemma FrameDispatchesOnce(n: Json, rest: string)
    ensures Events(Frame(n) + rest) == [Stringify(n)] + Events(rest)
  {
    StringifySingleLine(n);
    DataRecordDispatchesOnce(Stringify(n), rest);
  }

  /** A keep-alive record dispatches nothing and leaves the reader as it was. */
  lemma KeepAliveIsSilent(rest: string)
    ensures Events(KeepAlive + rest) == Events(rest)
  {
    var line := ": keep-alive";
    assert KeepAlive + rest == line + ("\n" + ("\n" + rest));
    ReadLine(line, "\n" + ("\n" + rest), [], []);
    assert [] + line == line;
    EndOfLine("\n" + rest, line, []);
    BlankLine(rest, []);
  }

  /** What the channel writes: notification records and keep-alive records. */
  datatype Record = Notification(n: Json) | Ping

  function Encode(rs: seq<Record>): string {
    if rs == [] then ""
    else (if rs[0].Ping? then KeepAlive else Frame(rs[0].n)) + Encode(rs[1..])
  }

  /** The JSON texts of the notification records, in order. */
  function Payloads(rs: seq<Record>): seq<string> {
    if rs == [] then []
    else (if rs[0].Ping? then [] else [Stringify(rs[0].n)]) + Payloads(rs[1..])
  }

  /** The consumer receives exactly the notifications that were written, each once
      and in order, and nothing for the keep-alive records between them. */
  lemma {:induction false} EncodeRoundTrip(rs: seq<Record>)
    ensures Events(Encode(rs)) == Payloads(rs)
  {
    if rs != [] {
      EncodeRoundTrip(rs[1..]);
      if rs[0].Ping? {
        KeepAliveIsSilent(Encode(rs[1..]));
      } else {
        FrameDispatchesOnce(rs[0].n, Encode(rs[1..]));
      }
    }
  }

  /** A stream of keep-alive records only dispatches no event at all. */
  lemma {:induction false} KeepAlivesOnlyAreSilent(rs: seq<Record>)
    requires forall i :: 0 <= i < |rs| ==> rs[i].Ping?
    ensures Events(Encode(rs)) == []
  {
    EncodeRoundTrip(rs);
    PingsHaveNoPayloads(rs);
  }

  lemma {:induction false} PingsHaveNoPayloads(rs: seq<Record>)
    requires forall i :: 0 <= i < |rs| ==> rs[i].Ping?
    ensures Payloads(rs) == []
  {
    if rs != [] {
      PingsHaveNoPayloads(rs[1..]);
    }
  }

  /** The bytes of a stream: its chunks one after the other. */
  function Concat(chunks: seq<string>): string {
    if chunks == [] then "" else chunks[0] + Concat(chunks[1..])
  }

  /** A subscriber whose chunks are the records of `ns` receives the JSON text of
      each notification once, in publication order. */
  lemma {:induction false} FramesDecode(ns: seq<Json>)
    ensures Events(Concat(seq(|ns|, i requires 0 <= i < |ns| => Frame(ns[i]))))
         == seq(|ns|, i requires 0 <= i < |ns| => Stringify(ns[i]))
  {
    var frames := seq(|ns|, i requires 0 <= i < |ns| => Frame(ns[i]));
    if ns == [] {
      assert frames == [];
    } else {
      FramesDecode(ns[1..]);
      assert frames[1..] == seq(|ns[1..]|, i requires 0 <= i < |ns[1..]| => Frame(ns[1..][i]));
      FrameDispatchesOnce(ns[0], Concat(frames[1..]));
      assert seq(|ns|, i requires 0 <= i < |ns| => Stringify(ns[i]))
          == [Stringify(ns[0])] + seq(|ns[1..]|, i requires 0 <= i < |ns[1..]| => Stringify(ns[1..][i]));
    }
  }
}
