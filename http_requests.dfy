/** The HTTP requests the two REST backends send to Home Assistant: the two
    GETs of the session start and the POSTs to the light services, with the
    JSON bodies they carry. Only the request shapes are modelled; the HTTP
    client and its responses are not. */
module HttpRequests {
  import opened Common
  import opened HomeAssistant

  /** The paths below the `/api` base the backends use. */
  datatype Endpoint = States | Services | LightTurnOnPath | LightTurnOffPath

  function Path(e: Endpoint): string
  {
    match e
    case States => "/states"
    case Services => "/services"
    case LightTurnOnPath => "/services/light/turn_on"
    case LightTurnOffPath => "/services/light/turn_off"
  }

  /** The JSON body of a POST:
      - `Stream`: `{entity_id: [all lights], brightness, rgb_color}`;
      - `ColorOne`: `{entity_id: light, rgb_color}`;
      - `EntityOnly`: `{entity_id: light}`;
      - `ReplayOne`: `{entity_id: light, **attributes}`. */
  datatype Body =
    | Stream(entityIds: seq<string>, brightness: int, rgbColor: seq<int>)
    | ColorOne(entityId: string, rgbColor: seq<int>)
    | EntityOnly(entityId: string)
    | ReplayOne(entityId: string, attributes: map<string, Json>)

  datatype HttpRequest = Get(endpoint: Endpoint) | Post(endpoint: Endpoint, body: Body)

  /** The JSON object a body serialises. In `{"entity_id": light, **attributes}`
      a later key wins, which Dafny's map union `+` also does. */
  function BodyJson(b: Body): map<string, Json>
  {
    match b
    case Stream(ids, br, rgb) => map["entity_id" := StrArray(ids), "brightness" := Int(br), "rgb_color" := IntArray(rgb)]
    case ColorOne(l, rgb) => map["entity_id" := Str(l), "rgb_color" := IntArray(rgb)]
    case EntityOnly(l) => map["entity_id" := Str(l)]
    case ReplayOne(l, a) => map["entity_id" := Str(l)] + a
  }

  /** A replayed turn_on carries exactly `entity_id` and the captured
      attributes, each with its captured value; `entity_id` names the light
      whenever the capture has no attribute of that name. */
  lemma ReplayBodyJson(l: string, a: map<string, Json>)
    ensures BodyJson(ReplayOne(l, a)).Keys == a.Keys + {"entity_id"}
    ensures forall k :: k in a ==> BodyJson(ReplayOne(l, a))[k] == a[k]
    ensures "entity_id" !in a ==> BodyJson(ReplayOne(l, a))["entity_id"] == Str(l)
  {
  }

  /** A snapshot taken over the thirteen attribute keys never holds
      `entity_id`, so its replay addresses its own light. */
  lemma SnapshotReplayAddressesLight(l: string, s: Snapshot)
    requires s.attributes.Keys <= set k | k in AttributeKeys
    ensures BodyJson(ReplayOne(l, s.attributes))["entity_id"] == Str(l)
  {
    assert "entity_id" !in AttributeKeys;
    ReplayBodyJson(l, s.attributes);
  }

  /** One streamed sample: turn_on for the whole light list. */
  function StreamRequest(s: Sample, lights: seq<string>): HttpRequest
  {
    Post(LightTurnOnPath, Stream(lights, s.brightness, s.rgb))
  }

  /** One restore command as a POST addressed to its single light. */
  function RestoreRequest(c: RestoreCommand): HttpRequest
  {
    match c
    case TurnOff(l) => Post(LightTurnOffPath, EntityOnly(l))
    case TurnOn(l, a) => Post(LightTurnOnPath, ReplayOne(l, a))
  }

  /** The stream POSTs of a run of samples, in order. */
  function StreamRequests(samples: seq<Sample>, lights: seq<string>): (rs: seq<HttpRequest>)
    ensures |rs| == |samples|
  {
    if samples == [] then []
    else StreamRequests(samples[..|samples| - 1], lights) + [StreamRequest(samples[|samples| - 1], lights)]
  }

  /** The restore POSTs of a run of restore commands, in order. */
  function RestoreRequests(cmds: seq<RestoreCommand>): (rs: seq<HttpRequest>)
    ensures |rs| == |cmds|
  {
    if cmds == [] then []
    else RestoreRequests(cmds[..|cmds| - 1]) + [RestoreRequest(cmds[|cmds| - 1])]
  }

  /** The j-th stream POST carries the j-th sample for every light. */
  lemma {:induction false} StreamRequestsAt(samples: seq<Sample>, lights: seq<string>, j: int)
    requires 0 <= j < |samples|
    ensures StreamRequests(samples, lights)[j] == StreamRequest(samples[j], lights)
  {
    var init := samples[..|samples| - 1];
    if j < |init| {
      StreamRequestsAt(init, lights, j);
    }
  }

  /** The j-th restore POST is the j-th command's request. */
  lemma {:induction false} RestoreRequestsAt(cmds: seq<RestoreCommand>, j: int)
    requires 0 <= j < |cmds|
    ensures RestoreRequests(cmds)[j] == RestoreRequest(cmds[j])
  {
    var init := cmds[..|cmds| - 1];
    if j < |init| {
      RestoreRequestsAt(init, j);
    }
  }

  lemma StreamRequestsSnoc(samples: seq<Sample>, s: Sample, lights: seq<string>)
    ensures StreamRequests(samples + [s], lights) == StreamRequests(samples, lights) + [StreamRequest(s, lights)]
  {
    assert (samples + [s])[..|samples|] == samples;
  }

  /** Two runs of samples sent one after the other send their concatenation. */
  lemma {:induction false} StreamRequestsAppend(a: seq<Sample>, b: seq<Sample>, lights: seq<string>)
    ensures StreamRequests(a + b, lights) == StreamRequests(a, lights) + StreamRequests(b, lights)
  {
    if b == [] {
      assert a + b == a;
    } else {
      var init, last := b[..|b| - 1], b[|b| - 1];
      assert a + b == (a + init) + [last];
      StreamRequestsAppend(a, init, lights);
      StreamRequestsSnoc(a + init, last, lights);
      StreamRequestsSnoc(init, last, lights);
      assert init + [last] == b;
    }
  }

  /** One sample is its stream POST. */
  lemma StreamRequestsSingle(s: Sample, lights: seq<string>)
    ensures StreamRequests([s], lights) == [StreamRequest(s, lights)]
  {
    assert [s][..0] == [];
  }

  /** An outbox holding the POSTs of the samples `prev`, extended by those of
      `got`, holds the POSTs of `prev + got`. */
  lemma RestStreamStep(base: seq<HttpRequest>, prev: seq<Sample>, got: seq<Sample>, lights: seq<string>,
                       before: seq<HttpRequest>, after: seq<HttpRequest>)
    requires before == base + StreamRequests(prev, lights)
    requires after == before + StreamRequests(got, lights)
    ensures after == base + StreamRequests(prev + got, lights)
  {
    StreamRequestsAppend(prev, got, lights);
  }

  /** One more snapshot entry extends the restore POSTs by its command's
      request, if it has one. */
  lemma RestoreRequestStep(items: Dict<string, Snapshot>, i: int)
    requires 0 <= i < |items|
    ensures var c := CommandFor(items[i]);
            RestoreRequests(RestoreCommands(items[..i + 1])) ==
            RestoreRequests(RestoreCommands(items[..i])) + (if c.Some? then [RestoreRequest(c.value)] else [])
  {
    assert items[..i + 1][..i] == items[..i];
    var cmds, c := RestoreCommands(items[..i]), CommandFor(items[i]);
    if c.Some? {
      assert RestoreCommands(items[..i + 1]) == cmds + [c.value];
      assert (cmds + [c.value])[..|cmds|] == cmds;
    } else {
      assert RestoreCommands(items[..i + 1]) == cmds;
    }
  }

  /** The REST restore plan and the websocket one agree command for command:
      the same service, addressed to the same single light, replaying the
      same attributes. */
  lemma RestoreAgreesWithWebSocket(cmds: seq<RestoreCommand>, first: int, j: int)
    requires 0 <= j < |cmds|
    ensures var r, m := RestoreRequests(cmds)[j], NumberedRestore(cmds, first)[j];
            r.Post? && m.CallService? && m.target == Light(cmds[j].light) &&
            (r.body.EntityOnly? || r.body.ReplayOne?) && r.body.entityId == cmds[j].light &&
            (r.endpoint == LightTurnOffPath <==> m.service == LightTurnOff) &&
            (r.body.ReplayOne? <==> m.serviceData.Replay?) &&
            (r.body.ReplayOne? ==> m.serviceData.Replay? && r.body.attributes == m.serviceData.attributes)
  {
    RestoreRequestsAt(cmds, j);
    NumberedRestoreAt(cmds, first, j);
  }

  /** What the REST push loop POSTs: one turn_on per sample in `sent` and,
      when the session was killed, the restore POSTs `cmds` after them. */
  function PushRequests(sent: seq<Sample>, killed: bool, lights: seq<string>, cmds: seq<RestoreCommand>): seq<HttpRequest>
  {
    if killed then StreamRequests(sent, lights) + RestoreRequests(cmds)
    else StreamRequests(sent, lights)
  }

  /** The end of a REST push-loop iteration: a kill appends the restore
      POSTs after the stream POSTs so far. */
  lemma RestPushStep(base: seq<HttpRequest>, sent: seq<Sample>, killed: bool, lights: seq<string>,
                     cmds: seq<RestoreCommand>, mid: seq<HttpRequest>, after: seq<HttpRequest>)
    requires mid == base + StreamRequests(sent, lights)
    requires killed ==> after == mid + RestoreRequests(cmds)
    requires !killed ==> after == mid
    ensures after == base + PushRequests(sent, killed, lights, cmds)
  {
    if killed {
      assert base + StreamRequests(sent, lights) + RestoreRequests(cmds) ==
             base + (StreamRequests(sent, lights) + RestoreRequests(cmds));
    }
  }

  /** The push loop POSTs each sample taken, in order, for the whole light
      list, followed, when killed, by the restore POSTs in command order. */
  lemma PushRequestsShape(sent: seq<Sample>, killed: bool, lights: seq<string>, cmds: seq<RestoreCommand>)
    ensures var rs := PushRequests(sent, killed, lights, cmds);
            |rs| == |sent| + (if killed then |cmds| else 0) &&
            (forall j :: 0 <= j < |sent| ==> rs[j] == StreamRequest(sent[j], lights)) &&
            (killed ==> forall j :: 0 <= j < |cmds| ==> rs[|sent| + j] == RestoreRequest(cmds[j]))
  {
    forall j | 0 <= j < |sent|
      ensures StreamRequests(sent, lights)[j] == StreamRequest(sent[j], lights)
    {
      StreamRequestsAt(sent, lights, j);
    }
    forall j | 0 <= j < |cmds|
      ensures RestoreRequests(cmds)[j] == RestoreRequest(cmds[j])
    {
      RestoreRequestsAt(cmds, j);
    }
  }
}
