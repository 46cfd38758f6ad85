/** The local Tuya streaming process: it keeps the "dj" (light) devices of
    the scanned device list, opens one bulb per device and captures its data
    points, sends every queued sample's colour to all bulbs and, when
    killed, writes each bulb's captured data points back and closes the
    bulbs. The bulb calls are an outbox, in order; the devices' answers are
    given as parameters. */
module TuyaProcess {
  import opened Common

  /** One entry of the scanned device list (`devices.json`). */
  datatype DeviceEntry = DeviceEntry(id: string, name: string, ip: string, key: string, version: string, category: string)

  /** `{id, name, ip_address, local_key, version}`, what is kept of a device. */
  datatype DeviceRecord = DeviceRecord(id: string, name: string, ipAddress: string, localKey: string, version: string)

  const LightCategory: string := "dj"

  function Projection(d: DeviceEntry): DeviceRecord
  {
    DeviceRecord(d.id, d.name, d.ip, d.key, d.version)
  }

  /** The records of the "dj" devices, in list order, as the loop appends them. */
  function KeptDevices(entries: seq<DeviceEntry>): (r: seq<DeviceRecord>)
    ensures |r| <= |entries|
  {
    if entries == [] then []
    else
      var last := entries[|entries| - 1];
      KeptDevices(entries[..|entries| - 1]) + (if last.category == LightCategory then [Projection(last)] else [])
  }

  /** Keeping is order-preserving: the kept records of a concatenation are
      those of its parts, one after the other. */
  lemma {:induction false} KeptDevicesAppend(a: seq<DeviceEntry>, b: seq<DeviceEntry>)
    ensures KeptDevices(a + b) == KeptDevices(a) + KeptDevices(b)
  {
    if b == [] {
      assert a + b == a;
    } else {
      var init := b[..|b| - 1];
      assert (a + b)[..|a + b| - 1] == a + init;
      KeptDevicesAppend(a, init);
    }
  }

  /** Exactly the "dj" devices are kept, each as its projection. */
  lemma {:induction false} KeptDevicesFilter(entries: seq<DeviceEntry>)
    ensures forall d :: d in entries && d.category == LightCategory ==> Projection(d) in KeptDevices(entries)
    ensures forall r :: r in KeptDevices(entries) ==>
              exists d :: d in entries && d.category == LightCategory && r == Projection(d)
  {
    if entries != [] {
      var init := entries[..|entries| - 1];
      KeptDevicesFilter(init);
      assert entries == init + [entries[|entries| - 1]];
    }
  }

  /** A device's data points (`status()["dps"]`). */
  type Dps = map<string, Json>

  /** A bulb connection (`BulbDevice(..., persist=True)`). */
  datatype Bulb = Bulb(devId: string, address: string, localKey: string, version: string)

  function BulbFor(r: DeviceRecord): Bulb
  {
    Bulb(r.id, r.ipAddress, r.localKey, r.version)
  }

  function Bulbs(records: seq<DeviceRecord>): (bs: seq<Bulb>)
    ensures |bs| == |records|
  {
    seq(|records|, i requires 0 <= i < |records| => BulbFor(records[i]))
  }

  /** The values written with `set_multiple_values`: `{"21": "colour", "24":
      value}` for a streamed colour, or a bulb's captured data points. */
  datatype Values = ColourValues(value: string) | CapturedValues(dps: Dps)

  function ValuesJson(v: Values): Dps
  {
    match v
    case ColourValues(value) => map["21" := Str("colour"), "24" := Str(value)]
    case CapturedValues(dps) => dps
  }

  /** A call on one bulb. */
  datatype BulbCall =
    | Status(dev: string)
    | SetColourMode(dev: string, nowait: bool)
    | SetValues(dev: string, values: Values, nowait: bool)
    | CloseBulb(dev: string)

  /** The calls of `__connect`: per device, in order, a status query and the
      switch to colour mode without waiting. */
  function ConnectCalls(records: seq<DeviceRecord>): (cs: seq<BulbCall>)
    ensures |cs| == 2 * |records|
  {
    if records == [] then []
    else
      var last := records[|records| - 1];
      ConnectCalls(records[..|records| - 1]) + [Status(last.id), SetColourMode(last.id, true)]
  }

  /** The captured data points: `d[id] = dps` per device, in order. */
  function CaptureAll(records: seq<DeviceRecord>, reports: seq<Dps>): Dict<string, Dps>
    requires |reports| == |records|
  {
    if records == [] then []
    else
      var n := |records| - 1;
      Put(CaptureAll(records[..n], reports[..n]), records[n].id, reports[n])
  }

  /** Every bulb has captured data points. */
  ghost predicate Covered(lights: seq<Bulb>, states: Dict<string, Dps>)
  {
    forall i :: 0 <= i < |lights| ==> lights[i].devId in Keys(states)
  }

  /** The capture holds an entry for every device. */
  lemma {:induction false} CaptureAllKeys(records: seq<DeviceRecord>, reports: seq<Dps>)
    requires |reports| == |records|
    ensures forall i :: 0 <= i < |records| ==> records[i].id in Keys(CaptureAll(records, reports))
  {
    if records != [] {
      var n := |records| - 1;
      var init := CaptureAll(records[..n], reports[..n]);
      CaptureAllKeys(records[..n], reports[..n]);
      PutKeepsKeys(init, records[n].id, reports[n]);
      var r := Put(init, records[n].id, reports[n]);
      assert CaptureAll(records, reports) == r;
      forall i | 0 <= i < |records|
        ensures records[i].id in Keys(r)
      {
        if i < n {
          assert records[..n][i] == records[i];
        }
      }
    }
  }

  /** Every bulb of the connected devices has captured data points. */
  lemma CaptureAllCovers(records: seq<DeviceRecord>, reports: seq<Dps>)
    requires |reports| == |records|
    ensures Covered(Bulbs(records), CaptureAll(records, reports))
  {
    CaptureAllKeys(records, reports);
  }

  /** Round trip: with distinct device ids, the data points captured for
      device i are the ones device i reported. */
  lemma {:induction false} CaptureAllRecalls(records: seq<DeviceRecord>, reports: seq<Dps>, i: int)
    requires |reports| == |records| && 0 <= i < |records|
    requires forall a, b :: 0 <= a < b < |records| ==> records[a].id != records[b].id
    ensures records[i].id in Keys(CaptureAll(records, reports))
    ensures Lookup(CaptureAll(records, reports), records[i].id) == reports[i]
  {
    var n := |records| - 1;
    var init := CaptureAll(records[..n], reports[..n]);
    if i < n {
      CaptureAllRecalls(records[..n], reports[..n], i);
      LookupPut(init, records[n].id, reports[n], records[i].id);
    } else {
      LookupPut(init, records[n].id, reports[n], records[i].id);
    }
  }

  /** The colour fan-out: the same colour values to every bulb, in order,
      none waiting for an answer. */
  function ColourCalls(lights: seq<Bulb>, value: string): (cs: seq<BulbCall>)
    ensures |cs| == |lights|
  {
    seq(|lights|, i requires 0 <= i < |lights| => SetValues(lights[i].devId, ColourValues(value), true))
  }

  /** The restore: each bulb, in order, gets its own captured data points
      back; only the call to the last bulb waits for an answer. */
  function RecoverCalls(lights: seq<Bulb>, states: Dict<string, Dps>): (cs: seq<BulbCall>)
    requires Covered(lights, states)
    ensures |cs| == |lights|
  {
    seq(|lights|, i requires 0 <= i < |lights| && Covered(lights, states) =>
      SetValues(lights[i].devId, CapturedValues(Lookup(states, lights[i].devId)), i != |lights| - 1))
  }

  /** Closing: every bulb, in order. */
  function CloseCalls(lights: seq<Bulb>): (cs: seq<BulbCall>)
    ensures |cs| == |lights|
  {
    seq(|lights|, i requires 0 <= i < |lights| => CloseBulb(lights[i].devId))
  }

  /** The fan-outs of a run of samples, in order; `colour` is the colour
      conversion of a sample to the bulbs' hex value. */
  function Fanned(samples: seq<Sample>, lights: seq<Bulb>, colour: Sample -> string): seq<BulbCall>
  {
    if samples == [] then []
    else Fanned(samples[..|samples| - 1], lights, colour) + ColourCalls(lights, colour(samples[|samples| - 1]))
  }

  lemma {:induction false} FannedAppend(a: seq<Sample>, b: seq<Sample>, lights: seq<Bulb>, colour: Sample -> string)
    ensures Fanned(a + b, lights, colour) == Fanned(a, lights, colour) + Fanned(b, lights, colour)
  {
    if b == [] {
      assert a + b == a;
    } else {
      var init := b[..|b| - 1];
      assert (a + b)[..|a + b| - 1] == a + init;
      FannedAppend(a, init, lights, colour);
    }
  }

  /** A colour call without waiting to one of the bulbs. */
  predicate ColourCallTo(c: BulbCall, lights: seq<Bulb>)
  {
    c.SetValues? && c.values.ColourValues? &&
    ValuesJson(c.values) == map["21" := Str("colour"), "24" := Str(c.values.value)] &&
    c.nowait && exists i :: 0 <= i < |lights| && lights[i].devId == c.dev
  }

  /** Every streamed call writes `{"21": "colour", "24": value}` to a bulb
      of the list without waiting, one fan-out of all bulbs per sample. */
  lemma {:induction false} FannedShape(samples: seq<Sample>, lights: seq<Bulb>, colour: Sample -> string)
    ensures |Fanned(samples, lights, colour)| == |samples| * |lights|
    ensures forall c :: c in Fanned(samples, lights, colour) ==> ColourCallTo(c, lights)
  {
    if samples != [] {
      var init := samples[..|samples| - 1];
      FannedShape(init, lights, colour);
      var cs := ColourCalls(lights, colour(samples[|samples| - 1]));
      forall c | c in cs
        ensures ColourCallTo(c, lights)
      {
        var j :| 0 <= j < |cs| && cs[j] == c;
        assert lights[j].devId == c.dev;
      }
      assert |samples| * |lights| == |init| * |lights| + |lights|;
    }
  }

  /** One sample is one fan-out. */
  lemma FannedSingle(s: Sample, lights: seq<Bulb>, colour: Sample -> string)
    ensures Fanned([s], lights, colour) == ColourCalls(lights, colour(s))
  {
    assert [s][..0] == [];
  }

  /** An outbox holding the fan-outs of `prev`, extended by those of `got`,
      holds the fan-outs of `prev + got`. */
  lemma TuyaStreamStep(base: seq<BulbCall>, prev: seq<Sample>, got: seq<Sample>, lights: seq<Bulb>,
                       colour: Sample -> string, before: seq<BulbCall>, after: seq<BulbCall>)
    requires before == base + Fanned(prev, lights, colour)
    requires after == before + Fanned(got, lights, colour)
    ensures after == base + Fanned(prev + got, lights, colour)
  {
    FannedAppend(prev, got, lights, colour);
  }

  /** Only the last restore call waits, and it goes to the last bulb. */
  lemma RecoverWaitsOnlyLast(lights: seq<Bulb>, states: Dict<string, Dps>)
    requires Covered(lights, states)
    ensures forall i :: 0 <= i < |lights| ==> (RecoverCalls(lights, states)[i].nowait <==> i < |lights| - 1)
    ensures |lights| > 0 ==> !RecoverCalls(lights, states)[|lights| - 1].nowait
  {
  }

  /** What the push loop sends: the fan-out of every sample taken and, when
      the process was killed, the restore calls and then the closes. */
  function TuyaPushCalls(sent: seq<Sample>, killed: bool, lights: seq<Bulb>, colour: Sample -> string,
                         states: Dict<string, Dps>): seq<BulbCall>
    requires Covered(lights, states)
  {
    if killed then Fanned(sent, lights, colour) + RecoverCalls(lights, states) + CloseCalls(lights)
    else Fanned(sent, lights, colour)
  }

  /** The end of a push-loop iteration: a kill appends the restore calls
      and then the closes after the fan-outs so far. */
  lemma TuyaPushStep(base: seq<BulbCall>, sent: seq<Sample>, killed: bool, lights: seq<Bulb>, colour: Sample -> string,
                     states: Dict<string, Dps>, mid: seq<BulbCall>, after: seq<BulbCall>)
    requires Covered(lights, states)
    requires mid == base + Fanned(sent, lights, colour)
    requires killed ==> after == mid + RecoverCalls(lights, states) + CloseCalls(lights)
    requires !killed ==> after == mid
    ensures after == base + TuyaPushCalls(sent, killed, lights, colour, states)
  {
    if killed {
      var f, r, c := Fanned(sent, lights, colour), RecoverCalls(lights, states), CloseCalls(lights);
      assert base + f + r + c == base + (f + r + c);
    }
  }

  class LocalTuyaProcess {
    var connectionStatus: bool
    /** `__devices`: the kept device records. */
    var devices: seq<DeviceRecord>
    /** `__lights`: one bulb per kept device. */
    var lights: seq<Bulb>
    /** `__initial_light_states`: captured data points by device id. */
    var initialLightStates: Dict<string, Dps>
    /** Every bulb call, in order. */
    var outbox: seq<BulbCall>
    /** Whether "ready" was sent to the parent process. */
    var readySent: bool

    /** Every bulb has captured data points to be restored from. */
    ghost predicate Valid()
      reads this
    {
      Covered(lights, initialLightStates)
    }

    constructor()
      ensures Valid()
      ensures !connectionStatus && devices == [] && lights == [] && initialLightStates == [] && outbox == [] && !readySent
    {
      connectionStatus, devices, lights, initialLightStates, outbox, readySent := false, [], [], [], [], false;
    }

    /** `__initialize`: keeps the "dj" devices of the scanned list, each
        projected to its record. */
    method Initialize(entries: seq<DeviceEntry>)
      modifies this`devices
      ensures devices == KeptDevices(entries)
    {
      devices := [];
      var i := 0;
      while i < |entries|
        invariant 0 <= i <= |entries|
        invariant devices == KeptDevices(entries[..i])
      {
        assert entries[..i + 1][..i] == entries[..i];
        var device := entries[i];
        if device.category == "dj" {
          devices := devices + [DeviceRecord(device.id, device.name, device.ip, device.key, device.version)];
        }
        i := i + 1;
      }
      assert entries[..i] == entries;
    }

    /** `__connect`: one bulb per kept device, in order; its data points
        (`reports`, one per device) are captured under its id and it is
        switched to colour mode; then the status is true. */
    method Connect(reports: seq<Dps>)
      requires |reports| == |devices|
      modifies this`lights, this`initialLightStates, this`outbox, this`connectionStatus
      ensures Valid()
      ensures lights == Bulbs(devices) && initialLightStates == CaptureAll(devices, reports)
      ensures outbox == old(outbox) + ConnectCalls(devices)
      ensures connectionStatus
    {
      lights := [];
      initialLightStates := [];
      var i := 0;
      while i < |devices|
        invariant 0 <= i <= |devices|
        invariant lights == Bulbs(devices[..i])
        invariant initialLightStates == CaptureAll(devices[..i], reports[..i])
        invariant outbox == old(outbox) + ConnectCalls(devices[..i])
      {
        ConnectStep(devices, reports, i);
        var device := devices[i];
        lights := lights + [Bulb(device.id, device.ipAddress, device.localKey, device.version)];
        outbox := outbox + [Status(device.id)];
        initialLightStates := Put(initialLightStates, device.id, reports[i]);
        outbox := outbox + [SetColourMode(device.id, true)];
        i := i + 1;
      }
      assert devices[..i] == devices && reports[..i] == reports;
      CaptureAllCovers(devices, reports);
      connectionStatus := true;
    }

    /** `__send_light_state`: the sample's colour, converted once, goes to
        every bulb without waiting. */
    method SendLightState(s: Sample, colour: Sample -> string)
      modifies this`outbox
      ensures outbox == old(outbox) + ColourCalls(lights, colour(s))
    {
      var value := colour(s);
      var i := 0;
      while i < |lights|
        invariant 0 <= i <= |lights|
        invariant outbox == old(outbox) + ColourCalls(lights[..i], value)
      {
        assert ColourCalls(lights[..i + 1], value) == ColourCalls(lights[..i], value) + [SetValues(lights[i].devId, ColourValues(value), true)];
        outbox := outbox + [SetValues(lights[i].devId, ColourValues(value), true)];
        i := i + 1;
      }
      assert lights[..i] == lights;
    }

    /** `__recover_light_state`: every bulb, in order, gets its own captured
        data points back; only the last call waits. */
    method RecoverLightState()
      requires Valid()
      modifies this`outbox
      ensures outbox == old(outbox) + RecoverCalls(lights, initialLightStates)
    {
      var i := 0;
      while i < |lights|
        invariant 0 <= i <= |lights|
        invariant |outbox| == |old(outbox)| + i
        invariant outbox[..|old(outbox)|] == old(outbox)
        invariant forall j :: 0 <= j < i ==> outbox[|old(outbox)| + j] == RecoverCalls(lights, initialLightStates)[j]
      {
        var light := lights[i];
        var nowait: bool;
        if i == |lights| - 1 {
          nowait := false;
        } else {
          nowait := true;
        }
        var data := Lookup(initialLightStates, light.devId);
        outbox := outbox + [SetValues(light.devId, CapturedValues(data), nowait)];
        i := i + 1;
      }
      assert outbox == old(outbox) + RecoverCalls(lights, initialLightStates);
    }

    /** `__close_connection`: closes every bulb, then sets the status false. */
    method CloseConnection()
      modifies this`outbox, this`connectionStatus
      ensures outbox == old(outbox) + CloseCalls(lights) && !connectionStatus
    {
      var i := 0;
      while i < |lights|
        invariant 0 <= i <= |lights|
        invariant outbox == old(outbox) + CloseCalls(lights[..i])
      {
        assert CloseCalls(lights[..i + 1]) == CloseCalls(lights[..i]) + [CloseBulb(lights[i].devId)];
        outbox := outbox + [CloseBulb(lights[i].devId)];
        i := i + 1;
      }
      assert lights[..i] == lights;
      connectionStatus := false;
    }

    /** `kill`: restore, then (after a pause) close. */
    method Kill()
      requires Valid()
      modifies this`outbox, this`connectionStatus
      ensures outbox == old(outbox) + RecoverCalls(lights, initialLightStates) + CloseCalls(lights)
      ensures !connectionStatus
    {
      RecoverLightState();
      CloseConnection();
    }

    /** `__push_states`: each iteration takes one poll of the queue (a
        three-second timeout) and, for a sample, sends its colour; a timeout
        only loops again. After the iteration the loop ends if the
        connection status is false. The process is killed during iteration
        `killDuring` (never, when that is past the polls), after that
        iteration's sample. */
    method PushStates(polls: seq<Poll<Sample>>, killDuring: nat, colour: Sample -> string) returns (iterations: nat)
      requires Valid() && connectionStatus
      modifies this`outbox, this`connectionStatus
      ensures Valid()
      ensures iterations == LoopIterations(|polls|, killDuring)
      ensures connectionStatus <==> killDuring >= |polls|
      ensures outbox == old(outbox) + TuyaPushCalls(Received(polls[..iterations]), killDuring < |polls|,
                                                    lights, colour, initialLightStates)
    {
      var i := 0;
      ghost var sent: seq<Sample> := [];
      while i < |polls|
        invariant 0 <= i <= |polls| && i <= killDuring
        invariant connectionStatus
        invariant sent == Received(polls[..i])
        invariant outbox == old(outbox) + Fanned(sent, lights, colour)
      {
        ReceivedSnoc(polls, i);
        var stop := Iterate(polls[i], i == killDuring, colour, old(outbox), sent);
        sent := sent + Payload(polls[i]);
        i := i + 1;
        if stop {
          return i;
        }
      }
      iterations := i;
    }

    /** One iteration of `__push_states` on the poll `p`: the colour of its
        sample, the kill when it comes now, then the status check. The
        outbox so far is `base` followed by the fan-outs of the samples
        `prev`. */
    method Iterate(p: Poll<Sample>, killNow: bool, colour: Sample -> string, ghost base: seq<BulbCall>, ghost prev: seq<Sample>)
      returns (stop: bool)
      requires Valid() && connectionStatus
      requires outbox == base + Fanned(prev, lights, colour)
      modifies this`outbox, this`connectionStatus
      ensures Valid()
      ensures stop == killNow && connectionStatus == !killNow
      ensures outbox == base + TuyaPushCalls(prev + Payload(p), killNow, lights, colour, initialLightStates)
    {
      ghost var before := outbox;
      Dispatch(p, colour);
      ghost var mid := outbox;
      TuyaStreamStep(base, prev, Payload(p), lights, colour, before, mid);
      stop := KillPoint(killNow);
      TuyaPushStep(base, prev + Payload(p), killNow, lights, colour, initialLightStates, mid, outbox);
    }

    /** The send half of one iteration: a sample's colour goes to every
        bulb, a timeout sends nothing. */
    method Dispatch(p: Poll<Sample>, colour: Sample -> string)
      modifies this`outbox
      ensures outbox == old(outbox) + Fanned(Payload(p), lights, colour)
    {
      if p.Got? {
        SendLightState(p.value, colour);
        FannedSingle(p.value, lights, colour);
      }
    }

    /** The end of one iteration: the kill, when it comes during this
        iteration, then the check of the connection status that ends the
        loop. */
    method KillPoint(killNow: bool) returns (stop: bool)
      requires Valid() && connectionStatus
      modifies this`outbox, this`connectionStatus
      ensures Valid()
      ensures stop == killNow && connectionStatus == !killNow
      ensures killNow ==> outbox == old(outbox) + RecoverCalls(lights, initialLightStates) + CloseCalls(lights)
      ensures !killNow ==> outbox == old(outbox)
    {
      if killNow {
        Kill();
      }
      stop := !connectionStatus;
    }

    /** `run`: keep the devices, connect, tell the parent it is ready, then
        stream until killed. */
    method Run(entries: seq<DeviceEntry>, reports: seq<Dps>, polls: seq<Poll<Sample>>, killDuring: nat,
               colour: Sample -> string)
      requires |reports| == |KeptDevices(entries)|
      modifies this`devices, this`lights, this`initialLightStates, this`outbox, this`connectionStatus, this`readySent
      ensures devices == KeptDevices(entries) && lights == Bulbs(devices)
      ensures initialLightStates == CaptureAll(devices, reports) && readySent
      ensures Valid()
      ensures outbox == old(outbox) + ConnectCalls(devices) +
                        TuyaPushCalls(Received(polls[..LoopIterations(|polls|, killDuring)]), killDuring < |polls|,
                                      lights, colour, initialLightStates)
    {
      Initialize(entries);
      Connect(reports);
      readySent := true;
      var _ := PushStates(polls, killDuring, colour);
    }
  }

  /** One device of the connect loop: the bulb list, the capture and the
      calls each grow by that device's part. */
  lemma ConnectStep(records: seq<DeviceRecord>, reports: seq<Dps>, i: int)
    requires |reports| == |records| && 0 <= i < |records|
    ensures Bulbs(records[..i + 1]) == Bulbs(records[..i]) + [BulbFor(records[i])]
    ensures CaptureAll(records[..i + 1], reports[..i + 1]) == Put(CaptureAll(records[..i], reports[..i]), records[i].id, reports[i])
    ensures ConnectCalls(records[..i + 1]) == ConnectCalls(records[..i]) + [Status(records[i].id), SetColourMode(records[i].id, true)]
  {
    assert records[..i + 1][..i] == records[..i];
    assert reports[..i + 1][..i] == reports[..i];
  }
}
