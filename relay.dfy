/** The broadcast registry of `src/app/lib/api.ts`: the module-level set of open
    stream controllers and the fan-out that writes one event-stream record to each. */
module Relay {
  import opened Json
  import opened EventStream

  /** The sink of one open event stream (a `ReadableStreamDefaultController`). Its
      `enqueue` throws once the stream is closed or errored, which `open` records;
      `chunks` are the records it has accepted, in order. */
  class Controller {
    var open: bool
    var chunks: seq<string>

    constructor ()
      ensures open && chunks == []
    {
      open := true;
      chunks := [];
    }

    /** The peer went away: every later `enqueue` throws. */
    method Close()
      modifies this
      ensures !open && chunks == old(chunks)
    {
      open := false;
    }

    /** `enqueue(chunk)`; `ok` is false where the call throws. */
    method Enqueue(chunk: string) returns (ok: bool)
      modifies this
      ensures ok == old(open) && open == old(open)
      ensures chunks == if ok then old(chunks) + [chunk] else old(chunks)
    {
      ok := open;
      if ok {
        chunks := chunks + [chunk];
      }
    }
  }

  /** The `clients` set, one per server process. */
  class Registry {
    var clients: set<Controller>

    constructor ()
      ensures clients == {}
    {
      clients := {};
    }

    /** `addClient`: a controller already registered is not added twice. */
    method AddClient(c: Controller)
      modifies this
      ensures clients == old(clients) + {c}
      ensures c in old(clients) ==> clients == old(clients)
      ensures |clients| == |old(clients)| + (if c in old(clients) then 0 else 1)
    {
      clients := clients + {c};
    }

    /** `removeClient`: only `c` leaves; removing an absent controller does nothing. */
    method RemoveClient(c: Controller)
      modifies this
      ensures clients == old(clients) - {c}
      ensures c !in old(clients) ==> clients == old(clients)
      ensures |clients| == |old(clients)| - (if c in old(clients) then 1 else 0)
    {
      clients := clients - {c};
    }

    /** `broadcastToClients`: every controller registered at the start receives the
        same record exactly once, or, when its `enqueue` throws, is dropped from the
        set; a failure does not stop the others and nothing escapes to the caller.
        No controller joins the set, and no controller's own state changes beyond
        the record it accepts. */
    method BroadcastToClients(notification: Json)
      modifies this, clients
      ensures forall c :: c in clients <==> c in old(clients) && old(c.open)
      ensures forall c :: c in old(clients) ==>
                c.open == old(c.open) &&
                c.chunks == if old(c.open) then old(c.chunks) + [Frame(notification)] else old(c.chunks)
    {
      var frame := Frame(notification);
      ghost var start := clients;
      var pending := clients;
      while pending != {}
        invariant pending <= start
        invariant forall c :: c in clients <==> c in start && (c in pending || old(c.open))
        invariant forall c :: c in pending ==> c.open == old(c.open) && c.chunks == old(c.chunks)
        invariant forall c :: c in start && c !in pending ==>
                    c.open == old(c.open) &&
                    c.chunks == if old(c.open) then old(c.chunks) + [frame] else old(c.chunks)
        decreases pending
      {
        var c :| c in pending;
        var ok := c.Enqueue(frame);
        if !ok {
          clients := clients - {c};
        }
        pending := pending - {c};
      }
    }
  }

  /** Two subscribers, one whose stream is already closed; a burst of notifications
      is published. The healthy one receives every record in order; the broken one
      receives none and is gone from the set after the first publish. */
  method FailingSubscriberIsIsolated(notifications: seq<Json>)
    returns (healthy: seq<string>, broken: seq<string>, brokenRegistered: bool)
    ensures healthy == seq(|notifications|, i requires 0 <= i < |notifications| => Frame(notifications[i]))
    ensures Events(Concat(healthy)) == seq(|notifications|, i requires 0 <= i < |notifications| => Stringify(notifications[i]))
    ensures broken == []
    ensures brokenRegistered == (notifications == [])
  {
    var registry := new Registry();
    var good := new Controller();
    var bad := new Controller();
    registry.AddClient(good);
    registry.AddClient(bad);
    bad.Close();
    var k := 0;
    while k < |notifications|
      invariant 0 <= k <= |notifications|
      invariant good.open && !bad.open
      invariant registry.clients == if k == 0 then {good, bad} else {good}
      invariant good.chunks == seq(k, i requires 0 <= i < k => Frame(notifications[i]))
      invariant bad.chunks == []
    {
      ghost var before := good.chunks;
      registry.BroadcastToClients(notifications[k]);
      assert good.chunks == before + [Frame(notifications[k])];
      assert bad !in registry.clients;
      k := k + 1;
    }
    healthy, broken := good.chunks, bad.chunks;
    FramesDecode(notifications);
    brokenRegistered := bad in registry.clients;
  }
}
