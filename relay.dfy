/**
 * The WebSocket relay: which connection is the device, what each new
 * connection is sent, how an inbound payload is routed, and what a close does.
 * Each handler runs to completion as one step.
 */
module Relay {
  import opened Json
  import opened Normaliser

  /** Identity of one accepted WebSocket connection. */
  type ConnId = nat

  /** The server-side `readyState` of a connection. */
  datatype ReadyState = Open | Closing | Closed

  /** An inbound frame: text that JSON.parse rejects, or the decoded payload. */
  datatype Inbound = Malformed | Parsed(data: Value)

  /**
   * An outbound frame: `{type: 'status', data: report}`, or a command payload
   * forwarded as it was decoded.
   */
  datatype Outbound = Status(report: DeviceReport) | Forward(command: Value)

  class Server {
    /** The module-level `esp32Client` slot. */
    var device: Option<ConnId>
    /** Every connection accepted so far, with its readyState. */
    var conns: map<ConnId, ReadyState>
    /** The frames sent to each connection, oldest first. */
    var outbox: map<ConnId, seq<Outbound>>
    /** The report collection, oldest first: its last element is the latest. */
    var store: seq<DeviceReport>

    /**
     * Every connection has an outbox, and the device slot only ever names a
     * connection that has not closed.
     */
    ghost predicate Valid()
      reads this
    {
      outbox.Keys == conns.Keys &&
      (device.Some? ==> device.value in conns && conns[device.value] != Closed)
    }

    /** A status broadcast made now reaches k: it is open and is not the bound device. */
    predicate Observer(k: ConnId)
      reads this
    {
      k in conns && conns[k] == Open && device != Some(k)
    }

    /** The relay starts with no connections and no device, over an existing store. */
    constructor (reports: seq<DeviceReport>)
      ensures Valid()
      ensures device == None && conns == map[] && outbox == map[] && store == reports
    {
      device := None;
      conns := map[];
      outbox := map[];
      store := reports;
    }

    /**
     * sendSystemStatus: the latest stored report goes to c as a status frame,
     * provided the store query succeeds (`fetched`), the store is not empty
     * and c is open.
     */
    method SendSystemStatus(c: ConnId, fetched: bool)
      requires Valid() && c in conns
      modifies this`outbox
      ensures Valid()
      ensures fetched && store != [] && conns[c] == Open ==>
                outbox == old(outbox)[c := old(outbox)[c] + [Status(store[|store| - 1])]]
      ensures !(fetched && store != [] && conns[c] == Open) ==> outbox == old(outbox)
    {
      if fetched && store != [] && conns[c] == Open {
        outbox := outbox[c := outbox[c] + [Status(store[|store| - 1])]];
      }
    }

    /**
     * A new connection: it is open, not the device, and has been sent the
     * latest report when there is one.
     */
    method Connect(c: ConnId, fetched: bool)
      requires Valid() && c !in conns
      modifies this
      ensures Valid()
      ensures device == old(device) && store == old(store)
      ensures conns == old(conns)[c := Open]
      ensures outbox == old(outbox)[c := if fetched && store != [] then [Status(store[|store| - 1])] else []]
    {
      conns := conns[c := Open];
      outbox := outbox[c := []];
      SendSystemStatus(c, fetched);
      assert fetched && store != [] ==> [] + [Status(store[|store| - 1])] == [Status(store[|store| - 1])];
    }

    /**
     * broadcastToWebClients: every open connection other than the bound
     * device gets msg appended; no other outbox changes.
     */
    method BroadcastToWebClients(msg: Outbound)
      requires Valid()
      modifies this`outbox
      ensures Valid()
      ensures outbox.Keys == old(outbox).Keys
      ensures forall k :: k in outbox ==> outbox[k] == old(outbox)[k] + (if Observer(k) then [msg] else [])
    {
      var pending := conns.Keys;
      while pending != {}
        invariant pending <= conns.Keys
        invariant Valid()
        invariant forall k :: k in outbox ==>
                    outbox[k] == old(outbox)[k] + (if k !in pending && Observer(k) then [msg] else [])
        decreases pending
      {
        var client :| client in pending;
        if device != Some(client) && conns[client] == Open {
          outbox := outbox[client := outbox[client] + [msg]];
        }
        pending := pending - {client};
      }
    }

    /**
     * The device-report branch of the `message` handler: c becomes the
     * device; then, when the report can be built and the store accepts it
     * (`saved`), it is appended to the store and broadcast to every open
     * connection except c.
     */
    method HandleReport(c: ConnId, data: Value, saved: bool)
      requires Valid() && c in conns && conns[c] != Closed
      requires Classify(data) == Report
      modifies this
      ensures Valid() && conns == old(conns)
      ensures device == Some(c) && outbox.Keys == old(outbox).Keys && outbox[c] == old(outbox)[c]
      ensures var r := Normalise(data);
              if r.Some? && saved then
                store == old(store) + [r.value] &&
                forall k :: k in outbox ==>
                  outbox[k] == old(outbox)[k] + (if k != c && conns[k] == Open then [Status(r.value)] else [])
              else
                store == old(store) && outbox == old(outbox)
    {
      device := Some(c);
      var sensorReadings := ReadSensors(data);
      var size := GetSizeLabel(SizeSourceOf(data));
      if size.Some? {
        var report := DeviceReport(DeviceIdOf(data), size.value, sensorReadings, Motors(data),
                                   Truthy(Get(data, "ledStatus")));
        assert Normalise(data) == Some(report);
        if saved {
          store := store + [report];
          BroadcastToWebClients(Status(report));
        }
      }
    }

    /**
     * The command branch of the `message` handler: the payload goes to the
     * bound device when that device is open, and is dropped otherwise.
     */
    method ForwardCommand(data: Value)
      requires Valid()
      modifies this`outbox
      ensures Valid()
      ensures outbox == if device.Some? && conns[device.value] == Open
                        then old(outbox)[device.value := old(outbox)[device.value] + [Forward(data)]]
                        else old(outbox)
    {
      if device.Some? && conns[device.value] == Open {
        var bound := device.value;
        outbox := outbox[bound := outbox[bound] + [Forward(data)]];
      }
    }

    /**
     * The `message` handler for connection c. A malformed frame, a null
     * payload (whose property read throws) and a payload that is neither a
     * device report nor a command change nothing; reports and commands go to
     * the two branches above.
     */
    method Message(c: ConnId, input: Inbound, saved: bool)
      requires Valid() && c in conns && conns[c] != Closed
      modifies this
      ensures Valid() && conns == old(conns)
      ensures input.Malformed? || Classify(input.data) == Fault || Classify(input.data) == Ignored ==>
                device == old(device) && outbox == old(outbox) && store == old(store)
      ensures input.Parsed? && Classify(input.data) == Report ==>
                device == Some(c) && outbox.Keys == old(outbox).Keys && outbox[c] == old(outbox)[c]
      ensures input.Parsed? && Classify(input.data) == Report ==>
                var r := Normalise(input.data);
                if r.Some? && saved then
                  store == old(store) + [r.value] &&
                  forall k :: k in outbox ==>
                    outbox[k] == old(outbox)[k] + (if k != c && conns[k] == Open then [Status(r.value)] else [])
                else
                  store == old(store) && outbox == old(outbox)
      ensures input.Parsed? && Classify(input.data) == Command ==>
                device == old(device) && store == old(store) &&
                outbox == if device.Some? && conns[device.value] == Open
                          then old(outbox)[device.value := old(outbox)[device.value] + [Forward(input.data)]]
                          else old(outbox)
    {
      if input.Malformed? {
        return;
      }
      var kind := Classify(input.data);
      if kind == Report {
        HandleReport(c, input.data, saved);
      } else if kind == Command {
        ForwardCommand(input.data);
      }
    }

    /**
     * The connection's readyState leaves OPEN (its close handshake has begun);
     * its close event comes later.
     */
    method BeginClose(c: ConnId)
      requires Valid() && c in conns && conns[c] == Open
      modifies this`conns
      ensures Valid()
      ensures conns == old(conns)[c := Closing]
    {
      conns := conns[c := Closing];
    }

    /**
     * The `close` handler: c is closed, and the device slot is cleared only
     * when it holds c.
     */
    method Close(c: ConnId)
      requires Valid() && c in conns && conns[c] != Closed
      modifies this
      ensures Valid()
      ensures conns == old(conns)[c := Closed]
      ensures device == if old(device) == Some(c) then None else old(device)
      ensures outbox == old(outbox) && store == old(store)
    {
      conns := conns[c := Closed];
      if device == Some(c) {
        device := None;
      }
    }
  }

  /**
   * From the contracts alone: observers that connect to an empty store get
   * nothing, and a command sent while no device is bound is dropped.
   */
  method ConnectWalkthrough(stop: Value) returns (server: Server)
    requires Classify(stop) == Command
    ensures fresh(server) && server.Valid() && server.store == []
    ensures server.device == None && server.conns == map[1 := Open, 2 := Open]
    ensures server.outbox == map[1 := [], 2 := []]
  {
    server := new Server([]);
    server.Connect(1, true);
    server.Connect(2, true);
    server.Message(1, Parsed(stop), true);
  }

  /** An outbox map over connections 1 and 2 is determined by its two entries. */
  lemma TwoOutboxes(outbox: map<ConnId, seq<Outbound>>, first: seq<Outbound>, second: seq<Outbound>)
    requires outbox.Keys == {1, 2} && outbox[1] == first && outbox[2] == second
    ensures outbox == map[1 := first, 2 := second]
  {
  }

  /**
   * Continuing: a device report from connection 2 binds it as the device, is
   * stored, and reaches the observer but not the device.
   */
  method ReportStep(server: Server, data: Value, report: DeviceReport)
    requires Classify(data) == Report && Normalise(data) == Some(report)
    requires server.Valid() && server.store == []
    requires server.device == None && server.conns == map[1 := Open, 2 := Open]
    requires server.outbox == map[1 := [], 2 := []]
    modifies server
    ensures server.Valid() && server.store == [report]
    ensures server.device == Some(2) && server.conns == map[1 := Open, 2 := Open]
    ensures server.outbox == map[1 := [Status(report)], 2 := []]
  {
    server.Message(2, Parsed(data), true);
    assert server.outbox[1] == [] + [Status(report)] == [Status(report)];
    TwoOutboxes(server.outbox, [Status(report)], []);
  }

  /** Continuing: a command now reaches the bound device, and nobody else. */
  method CommandStep(server: Server, stop: Value, report: DeviceReport)
    requires Classify(stop) == Command
    requires server.Valid() && server.store == [report]
    requires server.device == Some(2) && server.conns == map[1 := Open, 2 := Open]
    requires server.outbox == map[1 := [Status(report)], 2 := []]
    modifies server
    ensures server.Valid() && server.store == [report]
    ensures server.device == Some(2) && server.conns == map[1 := Open, 2 := Open]
    ensures server.outbox == map[1 := [Status(report)], 2 := [Forward(stop)]]
  {
    server.Message(1, Parsed(stop), true);
    assert server.outbox[2] == [] + [Forward(stop)] == [Forward(stop)];
    TwoOutboxes(server.outbox, [Status(report)], [Forward(stop)]);
  }

  /**
   * Continuing: once the device closes, commands are dropped again, and a late
   * observer is sent the stored report.
   */
  method CloseStep(server: Server, stop: Value, report: DeviceReport)
    requires Classify(stop) == Command
    requires server.Valid() && server.store == [report]
    requires server.device == Some(2) && server.conns == map[1 := Open, 2 := Open]
    requires server.outbox == map[1 := [Status(report)], 2 := [Forward(stop)]]
    modifies server
    ensures server.Valid() && server.store == [report]
    ensures server.device == None && server.conns == map[1 := Open, 2 := Closed, 3 := Open]
    ensures server.outbox == map[1 := [Status(report)], 2 := [Forward(stop)], 3 := [Status(report)]]
  {
    server.Close(2);
    server.Message(1, Parsed(stop), true);
    server.Connect(3, true);
    assert server.outbox == map[1 := [Status(report)], 2 := [Forward(stop)], 3 := [Status(report)]];
  }

  /** The report built from the nested-sensor payload. */
  function ExpectedReport(): DeviceReport {
    DeviceReport(Str("esp32"), Medium, BySize(true, false, false), BySize(false, false, false), false)
  }

  /**
   * The whole session with the command {command: "stop"} and the nested-sensor
   * payload: the observers see the Medium report, the device sees the one
   * command sent while it was bound, and the late observer sees the report.
   */
  method NestedSession() returns (server: Server)
    ensures server.device == None && server.conns == map[1 := Open, 2 := Closed, 3 := Open]
    ensures server.outbox == map[1 := [Status(ExpectedReport())],
                                 2 := [Forward(Obj(map["command" := Str("stop")]))],
                                 3 := [Status(ExpectedReport())]]
  {
    var stop := Obj(map["command" := Str("stop")]);
    ClassifyPriority(stop);
    NormaliseNestedExample();
    server := ConnectWalkthrough(stop);
    ReportStep(server, NestedPayload(), ExpectedReport());
    CommandStep(server, stop, ExpectedReport());
    CloseStep(server, stop, ExpectedReport());
  }
}
