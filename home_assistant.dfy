/** What the Home Assistant backends have in common: the entity records the
    server reports, the "light" filter, the snapshot the sessions capture and
    the restore commands they derive from it, the websocket message shapes
    with their id numbering, and the auth handshake decision. */
module HomeAssistant {
  import opened Common

  // ---------------------------------------------------------------------
  // Entities and the light filter.
  // ---------------------------------------------------------------------

  /** One record of the server's state list: `{entity_id, state, attributes}`. */
  datatype Entity = Entity(entityId: string, state: string, attributes: map<string, Json>)

  const LightPrefix: string := "light"

  predicate IsLight(e: Entity)
  {
    StartsWith(e.entityId, LightPrefix)
  }

  /** The entities whose `entity_id` starts with "light", in server order. */
  function LightEntities(states: seq<Entity>): (r: seq<Entity>)
    ensures |r| <= |states|
  {
    if states == [] then []
    else (if IsLight(states[0]) then [states[0]] else []) + LightEntities(states[1..])
  }

  /** The filter keeps exactly the light entities. */
  lemma {:induction false} LightEntitiesFilter(states: seq<Entity>)
    ensures forall e :: e in LightEntities(states) <==> e in states && IsLight(e)
  {
    if states != [] {
      LightEntitiesFilter(states[1..]);
      assert states == [states[0]] + states[1..];
    }
  }

  /** The light filter keeps order: filtering a concatenation is the
      concatenation of the filtered parts. */
  lemma {:induction false} LightEntitiesAppend(a: seq<Entity>, b: seq<Entity>)
    ensures LightEntities(a + b) == LightEntities(a) + LightEntities(b)
  {
    if a != [] {
      assert (a + b)[0] == a[0];
      assert (a + b)[1..] == a[1..] + b;
      LightEntitiesAppend(a[1..], b);
    } else {
      assert a + b == b;
    }
  }

  function EntityIds(es: seq<Entity>): seq<string>
  {
    seq(|es|, i requires 0 <= i < |es| => es[i].entityId)
  }

  /** The `lights` list: ids of the light entities, in server order. */
  function LightIds(states: seq<Entity>): seq<string>
  {
    EntityIds(LightEntities(states))
  }

  /** The `lights` list holds the id of every light entity and nothing else:
      each id in it starts with "light" and belongs to one of the states. */
  lemma LightIdsAreLights(states: seq<Entity>)
    ensures forall id :: id in LightIds(states) ==> StartsWith(id, LightPrefix)
    ensures forall e :: e in states && IsLight(e) ==> e.entityId in LightIds(states)
    ensures forall id :: id in LightIds(states) ==> exists e :: e in states && e.entityId == id
  {
    var es := LightEntities(states);
    var ids := LightIds(states);
    LightEntitiesFilter(states);
    assert forall i :: 0 <= i < |es| ==> ids[i] == es[i].entityId && es[i] in states;
    forall e | e in es ensures e.entityId in ids {
      var i :| 0 <= i < |es| && es[i] == e;
      assert ids[i] == e.entityId;
    }
  }

  // ---------------------------------------------------------------------
  // The snapshot taken before streaming.
  // ---------------------------------------------------------------------

  /** The thirteen attributes copied into the snapshot of each light. */
  const AttributeKeys: seq<string> := [
    "effect", "color_mode", "brightness", "color_temp_kelvin", "color_temp",
    "hs_color", "rgb_color", "xy_color", "raw_state", "raw_color_mode",
    "raw_color", "raw_brightness", "raw_color_temp"
  ]

  /** The captured state of one light: its power state and the copied attributes. */
  datatype Snapshot = Snapshot(state: string, attributes: map<string, Json>)

  /** Whether every one of `keys` is present in `attrs`. */
  predicate AllPresent(keys: seq<string>, attrs: map<string, Json>)
  {
    keys == [] || (keys[0] in attrs && AllPresent(keys[1..], attrs))
  }

  /** The entries of `attrs` under `keys`. */
  function Project(keys: seq<string>, attrs: map<string, Json>): map<string, Json>
    requires AllPresent(keys, attrs)
  {
    if keys == [] then map[] else Project(keys[1..], attrs)[keys[0] := attrs[keys[0]]]
  }

  lemma {:induction false} AllPresentMeans(keys: seq<string>, attrs: map<string, Json>)
    ensures AllPresent(keys, attrs) <==> forall k :: k in keys ==> k in attrs
  {
    if keys != [] {
      AllPresentMeans(keys[1..], attrs);
      assert forall k :: k in keys <==> k == keys[0] || k in keys[1..];
    }
  }

  lemma {:induction false} ProjectMeans(keys: seq<string>, attrs: map<string, Json>)
    requires AllPresent(keys, attrs)
    ensures forall k :: k in Project(keys, attrs) <==> k in keys
    ensures forall k :: k in Project(keys, attrs) ==> k in attrs && Project(keys, attrs)[k] == attrs[k]
  {
    AllPresentMeans(keys, attrs);
    if keys != [] {
      ProjectMeans(keys[1..], attrs);
      assert forall k :: k in keys <==> k == keys[0] || k in keys[1..];
    }
  }

  /** The snapshot record of one entity, copying the attributes named by
      `keys` (the sessions pass AttributeKeys); None where reading one of them
      raises `KeyError`. */
  function Capture(keys: seq<string>, e: Entity): Option<Snapshot>
  {
    if AllPresent(keys, e.attributes) then
      Some(Snapshot(e.state, Project(keys, e.attributes)))
    else
      None
  }

  /** A record exists exactly when every named attribute is present; it
      keeps the state and exactly those attributes, with their values. */
  lemma CaptureCopiesAttributes(keys: seq<string>, e: Entity)
    ensures Capture(keys, e).Some? <==> forall k :: k in keys ==> k in e.attributes
    ensures Capture(keys, e).Some? ==> Capture(keys, e).value.state == e.state
    ensures Capture(keys, e).Some? ==> forall k :: k in Capture(keys, e).value.attributes <==> k in keys
    ensures Capture(keys, e).Some? ==>
              forall k :: k in Capture(keys, e).value.attributes ==>
                k in e.attributes && Capture(keys, e).value.attributes[k] == e.attributes[k]
  {
    AllPresentMeans(keys, e.attributes);
    if Capture(keys, e).Some? {
      ProjectMeans(keys, e.attributes);
    }
  }

  /** The snapshot dict built by the store loop, one `d[entity_id] = record`
      per entity in order; None where a record cannot be built. */
  function StoreSnapshots(keys: seq<string>, states: seq<Entity>): Option<Dict<string, Snapshot>>
  {
    if states == [] then Some([])
    else
      var earlier := StoreSnapshots(keys, states[..|states| - 1]);
      var last := states[|states| - 1];
      var snap := Capture(keys, last);
      if earlier.Some? && snap.Some? then Some(Put(earlier.value, last.entityId, snap.value))
      else None
  }

  /** The store succeeds exactly when every entity carries every named attribute. */
  lemma {:induction false} StoreSucceedsIffCaptured(keys: seq<string>, states: seq<Entity>)
    ensures StoreSnapshots(keys, states).Some? <==> forall i :: 0 <= i < |states| ==> Capture(keys, states[i]).Some?
  {
    if forall i :: 0 <= i < |states| ==> Capture(keys, states[i]).Some? {
      CapturedStores(keys, states);
    } else {
      var i :| 0 <= i < |states| && Capture(keys, states[i]).None?;
      MissingKeyFails(keys, states, i);
    }
  }

  lemma {:induction false} CapturedStores(keys: seq<string>, states: seq<Entity>)
    requires forall i :: 0 <= i < |states| ==> Capture(keys, states[i]).Some?
    ensures StoreSnapshots(keys, states).Some?
  {
    if states != [] {
      var init := states[..|states| - 1];
      assert forall i :: 0 <= i < |init| ==> Capture(keys, init[i]).Some?;
      CapturedStores(keys, init);
    }
  }

  /** One entity without every named attribute makes the whole store fail. */
  lemma {:induction false} MissingKeyFails(keys: seq<string>, states: seq<Entity>, i: int)
    requires 0 <= i < |states| && Capture(keys, states[i]).None?
    ensures StoreSnapshots(keys, states).None?
  {
    var init := states[..|states| - 1];
    if i < |init| {
      assert init[i] == states[i];
      MissingKeyFails(keys, init, i);
    }
  }

  /** A successful store is the store of all but the last entity with the
      last entity's record put under its id. */
  lemma StoreStep(keys: seq<string>, states: seq<Entity>)
    requires states != [] && StoreSnapshots(keys, states).Some?
    ensures StoreSnapshots(keys, states[..|states| - 1]).Some?
    ensures Capture(keys, states[|states| - 1]).Some?
    ensures StoreSnapshots(keys, states).value ==
              Put(StoreSnapshots(keys, states[..|states| - 1]).value, states[|states| - 1].entityId,
                  Capture(keys, states[|states| - 1]).value)
  {
    var earlier := StoreSnapshots(keys, states[..|states| - 1]);
    var snap := Capture(keys, states[|states| - 1]);
    assert earlier.Some? && snap.Some?;
  }

  /** The snapshot dict never holds the same entity id twice, whatever the
      server reports: a repeated id overwrites its earlier entry. */
  lemma {:induction false} StoreKeysDistinct(keys: seq<string>, states: seq<Entity>)
    requires StoreSnapshots(keys, states).Some?
    ensures DistinctKeys(StoreSnapshots(keys, states).value)
  {
    if states != [] {
      StoreStep(keys, states);
      StoreKeysDistinct(keys, states[..|states| - 1]);
      PutDistinct(StoreSnapshots(keys, states[..|states| - 1]).value, states[|states| - 1].entityId,
                  Capture(keys, states[|states| - 1]).value);
    }
  }

  /** Storing one more entity adds its id to the keys and nothing else. */
  lemma StoreStepKeys(keys: seq<string>, states: seq<Entity>)
    requires states != [] && StoreSnapshots(keys, states).Some?
    ensures StoreSnapshots(keys, states[..|states| - 1]).Some?
    ensures forall k :: k in Keys(StoreSnapshots(keys, states).value) <==>
              k in Keys(StoreSnapshots(keys, states[..|states| - 1]).value) || k == states[|states| - 1].entityId
  {
    StoreStep(keys, states);
    var last := states[|states| - 1];
    var d := StoreSnapshots(keys, states[..|states| - 1]).value;
    PutKeys(d, last.entityId, Capture(keys, last).value);
  }

  /** Every stored entity's id is a key of the snapshot. */
  lemma {:induction false} SnapshotKeysCover(keys: seq<string>, states: seq<Entity>)
    requires StoreSnapshots(keys, states).Some?
    ensures forall i :: 0 <= i < |states| ==> states[i].entityId in Keys(StoreSnapshots(keys, states).value)
  {
    if states != [] {
      var init := states[..|states| - 1];
      StoreStepKeys(keys, states);
      SnapshotKeysCover(keys, init);
      forall i | 0 <= i < |init|
        ensures states[i].entityId in Keys(StoreSnapshots(keys, states).value)
      {
        assert init[i] == states[i];
      }
    }
  }

  /** Every key of the snapshot is the id of a stored entity. */
  lemma {:induction false} SnapshotKeysFromStates(keys: seq<string>, states: seq<Entity>)
    requires StoreSnapshots(keys, states).Some?
    ensures forall k :: k in Keys(StoreSnapshots(keys, states).value) ==>
              exists i :: 0 <= i < |states| && states[i].entityId == k
  {
    if states != [] {
      var init := states[..|states| - 1];
      StoreStepKeys(keys, states);
      SnapshotKeysFromStates(keys, init);
      var d := StoreSnapshots(keys, init).value;
      forall k | k in Keys(StoreSnapshots(keys, states).value)
        ensures exists i :: 0 <= i < |states| && states[i].entityId == k
      {
        if k in Keys(d) {
          var i :| 0 <= i < |init| && init[i].entityId == k;
          assert states[i] == init[i];
        } else {
          assert states[|states| - 1].entityId == k;
        }
      }
    }
  }

  ghost predicate DistinctIds(states: seq<Entity>)
  {
    forall i, j :: 0 <= i < j < |states| ==> states[i].entityId != states[j].entityId
  }

  /** One `(entity_id, record)` pair per entity, in order. */
  function CapturedPairs(keys: seq<string>, states: seq<Entity>): seq<(string, Snapshot)>
    requires forall i :: 0 <= i < |states| ==> Capture(keys, states[i]).Some?
  {
    seq(|states|, i requires 0 <= i < |states| && Capture(keys, states[i]).Some? =>
      (states[i].entityId, Capture(keys, states[i]).value))
  }

  /** With distinct entity ids (as the server reports them), the snapshot holds
      one entry per entity, in the same order, each the capture of that entity. */
  lemma {:induction false} SnapshotFollowsStates(keys: seq<string>, states: seq<Entity>)
    requires DistinctIds(states)
    requires forall i :: 0 <= i < |states| ==> Capture(keys, states[i]).Some?
    ensures StoreSnapshots(keys, states) == Some(CapturedPairs(keys, states))
  {
    if states != [] {
      var init := states[..|states| - 1];
      var last := states[|states| - 1];
      assert forall i :: 0 <= i < |init| ==> init[i] == states[i];
      SnapshotFollowsStates(keys, init);
      var d := CapturedPairs(keys, init);
      assert forall j :: 0 <= j < |init| ==> Keys(d)[j] == init[j].entityId != last.entityId;
      assert last.entityId !in Keys(d);
      PutNewKey(d, last.entityId, Capture(keys, last).value);
      assert CapturedPairs(keys, states) == d + [(last.entityId, Capture(keys, last).value)];
    }
  }

  // ---------------------------------------------------------------------
  // Restoring the snapshot.
  // ---------------------------------------------------------------------

  /** A restore action for one light: switch it off, or switch it on replaying
      the captured attributes. */
  datatype RestoreCommand = TurnOff(light: string) | TurnOn(light: string, attributes: map<string, Json>)

  /** What the restore loop issues for one snapshot entry: a command for an
      "off" or "on" light, nothing for any other state. */
  function CommandFor(entry: (string, Snapshot)): Option<RestoreCommand>
  {
    if entry.1.state == "off" then Some(TurnOff(entry.0))
    else if entry.1.state == "on" then Some(TurnOn(entry.0, entry.1.attributes))
    else None
  }

  /** The restore commands, as the loop over the snapshot's items appends them. */
  function RestoreCommands(items: Dict<string, Snapshot>): (cmds: seq<RestoreCommand>)
    ensures |cmds| <= |items|
  {
    if items == [] then []
    else
      var c := CommandFor(items[|items| - 1]);
      RestoreCommands(items[..|items| - 1]) + (if c.Some? then [c.value] else [])
  }

  predicate Restorable(entry: (string, Snapshot))
  {
    entry.1.state == "off" || entry.1.state == "on"
  }

  /** Reference definition: the snapshot entries in an "on" or "off" state, in order. */
  function RestorableEntries(items: Dict<string, Snapshot>): seq<(string, Snapshot)>
  {
    if items == [] then []
    else (if Restorable(items[0]) then [items[0]] else []) + RestorableEntries(items[1..])
  }

  lemma {:induction false} RestorableEntriesSnoc(items: Dict<string, Snapshot>, x: (string, Snapshot))
    ensures RestorableEntries(items + [x]) == RestorableEntries(items) + (if Restorable(x) then [x] else [])
  {
    if items == [] {
      assert items + [x] == [x];
      assert [x][1..] == [];
    } else {
      assert (items + [x])[0] == items[0];
      assert (items + [x])[1..] == items[1..] + [x];
      RestorableEntriesSnoc(items[1..], x);
    }
  }

  /** Exactly one command per snapshot entry in an "on" or "off" state, in
      snapshot order, and that entry's command. */
  lemma {:induction false} RestoreOnePerEntry(items: Dict<string, Snapshot>)
    ensures |RestoreCommands(items)| == |RestorableEntries(items)|
    ensures forall j :: 0 <= j < |RestoreCommands(items)| ==>
              CommandFor(RestorableEntries(items)[j]) == Some(RestoreCommands(items)[j])
  {
    if items != [] {
      var init := items[..|items| - 1];
      var last := items[|items| - 1];
      assert items == init + [last];
      RestoreOnePerEntry(init);
      RestorableEntriesSnoc(init, last);
    }
  }

  /** Round trip: a light captured "on" with attributes A is restored by a
      turn_on replaying exactly A; one captured "off" by a turn_off. */
  lemma {:induction false} RestoreReplaysCapture(items: Dict<string, Snapshot>, i: nat)
    requires i < |items|
    ensures items[i].1.state == "on" ==> TurnOn(items[i].0, items[i].1.attributes) in RestoreCommands(items)
    ensures items[i].1.state == "off" ==> TurnOff(items[i].0) in RestoreCommands(items)
  {
    var init := items[..|items| - 1];
    if i < |items| - 1 {
      assert init[i] == items[i];
      RestoreReplaysCapture(init, i);
    }
  }

  /** A light whose captured state is neither "on" nor "off" gets no command. */
  lemma {:induction false} RestoreSkipsOtherStates(items: Dict<string, Snapshot>, i: nat)
    requires DistinctKeys(items)
    requires i < |items| && !Restorable(items[i])
    ensures forall c :: c in RestoreCommands(items) ==> c.light != items[i].0
  {
    var init := items[..|items| - 1];
    if i < |items| - 1 {
      assert init[i] == items[i];
      RestoreSkipsOtherStates(init, i);
    } else {
      RestoreCommandsFrom(init);
      assert forall j :: 0 <= j < |init| ==> init[j].0 != items[i].0;
    }
  }

  /** Every restore command addresses a light of the snapshot. */
  lemma {:induction false} RestoreCommandsFrom(items: Dict<string, Snapshot>)
    ensures forall c :: c in RestoreCommands(items) ==> exists j :: 0 <= j < |items| && items[j].0 == c.light
  {
    if items != [] {
      var init := items[..|items| - 1];
      RestoreCommandsFrom(init);
      assert forall j :: 0 <= j < |init| ==> init[j] == items[j];
    }
  }

  // ---------------------------------------------------------------------
  // Websocket messages and their ids.
  // ---------------------------------------------------------------------

  /** The `target.entity_id` of a command: the whole light list, or one light. */
  datatype Target = Lights(ids: seq<string>) | Light(id: string)

  /** The two services of the "light" domain the sessions call. */
  datatype Service = LightTurnOn | LightTurnOff

  /** The `service_data` of a call: none, a streamed sample's
      `{brightness, rgb_color}`, or a snapshot's captured attributes. */
  datatype ServiceData =
    | NoData
    | Color(brightness: int, rgbColor: seq<int>)
    | Replay(attributes: map<string, Json>)

  /** A message the client sends over the websocket; JSON serialisation is
      not modelled. */
  datatype WsMessage =
    | Auth(accessToken: string)
    | GetStates(id: int)
    | GetServices(id: int)
    | CallService(id: int, service: Service, serviceData: ServiceData, target: Target, returnResponse: bool)

  /** One streamed sample: turn_on for the whole light list. */
  function StreamMessage(id: int, s: Sample, lights: seq<string>): WsMessage
  {
    CallService(id, LightTurnOn, Color(s.brightness, s.rgb), Lights(lights), false)
  }

  /** One restore command as a websocket message addressed to its single light. */
  function RestoreMessage(c: RestoreCommand, id: int): WsMessage
  {
    match c
    case TurnOff(l) => CallService(id, LightTurnOff, NoData, Light(l), false)
    case TurnOn(l, a) => CallService(id, LightTurnOn, Replay(a), Light(l), false)
  }

  /** The ids carried by a run of messages, in sending order (Auth has none). */
  function Ids(msgs: seq<WsMessage>): seq<int>
  {
    if msgs == [] then []
    else
      var last := msgs[|msgs| - 1];
      Ids(msgs[..|msgs| - 1]) + (if last.Auth? then [] else [last.id])
  }

  /** The ids `lo, lo + 1, ..., hi - 1`. */
  function Consecutive(lo: int, hi: int): (r: seq<int>)
    requires lo <= hi
    ensures |r| == hi - lo
    decreases hi - lo
  {
    if lo == hi then [] else Consecutive(lo, hi - 1) + [hi - 1]
  }

  /** The j-th id of a consecutive run is `lo + j`. */
  lemma {:induction false} ConsecutiveAt(lo: int, hi: int, j: int)
    requires lo <= hi && 0 <= j < hi - lo
    ensures Consecutive(lo, hi)[j] == lo + j
    decreases hi - lo
  {
    var init := Consecutive(lo, hi - 1);
    assert Consecutive(lo, hi) == init + [hi - 1];
    if j < |init| {
      ConsecutiveAt(lo, hi - 1, j);
    }
  }

  /** Consecutive ids are strictly increasing, hence unique, and lie in
      [lo, hi). */
  lemma ConsecutiveIncreasing(lo: int, hi: int)
    requires lo <= hi
    ensures forall i :: 0 <= i < hi - lo ==> lo <= Consecutive(lo, hi)[i] < hi
    ensures forall i, j :: 0 <= i < j < hi - lo ==> Consecutive(lo, hi)[i] < Consecutive(lo, hi)[j]
  {
    forall i | 0 <= i < hi - lo
      ensures Consecutive(lo, hi)[i] == lo + i
    {
      ConsecutiveAt(lo, hi, i);
    }
  }

  /** Two adjacent runs of ids make one run. */
  lemma {:induction false} ConsecutiveAppend(a: int, b: int, c: int)
    requires a <= b <= c
    ensures Consecutive(a, b) + Consecutive(b, c) == Consecutive(a, c)
    decreases c - b
  {
    if b == c {
      assert Consecutive(a, b) + [] == Consecutive(a, b);
    } else {
      ConsecutiveAppend(a, b, c - 1);
      assert Consecutive(a, b) + (Consecutive(b, c - 1) + [c - 1]) == (Consecutive(a, b) + Consecutive(b, c - 1)) + [c - 1];
    }
  }

  lemma {:induction false} IdsAppend(a: seq<WsMessage>, b: seq<WsMessage>)
    ensures Ids(a + b) == Ids(a) + Ids(b)
  {
    if b == [] {
      assert a + b == a;
    } else {
      var init := b[..|b| - 1];
      assert (a + b)[..|a + b| - 1] == a + init;
      IdsAppend(a, init);
    }
  }

  /** Appending a run carrying the ids `id, id + 1, ...` to an outbox whose
      ids are 1 .. id - 1 keeps the ids consecutive. */
  lemma ConsecutiveExtends(outbox: seq<WsMessage>, run: seq<WsMessage>, id: int)
    requires 1 <= id
    requires Ids(outbox) == Consecutive(1, id)
    requires Ids(run) == Consecutive(id, id + |run|)
    ensures Ids(outbox + run) == Consecutive(1, id + |run|)
  {
    IdsAppend(outbox, run);
    ConsecutiveAppend(1, id, id + |run|);
  }
  /** Two runs of messages whose ids are adjacent runs join into one run. */
  lemma IdsJoin(a: seq<WsMessage>, b: seq<WsMessage>, lo: int, mid: int, hi: int)
    requires lo <= mid <= hi
    requires Ids(a) == Consecutive(lo, mid) && Ids(b) == Consecutive(mid, hi)
    ensures Ids(a + b) == Consecutive(lo, hi)
  {
    IdsAppend(a, b);
    ConsecutiveAppend(lo, mid, hi);
  }


  /** The ids of `msgs` are exactly `1, 2, ..., next - 1`, in order: the
      requests written so far have used up the ids below `next`. */
  predicate IdsBelow(msgs: seq<WsMessage>, next: int)
    decreases |msgs|
  {
    if msgs == [] then next == 1
    else
      var last := msgs[|msgs| - 1];
      if last.Auth? then IdsBelow(msgs[..|msgs| - 1], next)
      else last.id == next - 1 && IdsBelow(msgs[..|msgs| - 1], next - 1)
  }

  /** `IdsBelow` says that the id list is the run `1 .. next - 1`. */
  lemma {:induction false} IdsBelowMeans(msgs: seq<WsMessage>, next: int)
    ensures IdsBelow(msgs, next) <==> 1 <= next && Ids(msgs) == Consecutive(1, next)
    decreases |msgs|
  {
    if msgs != [] {
      var init, last := msgs[..|msgs| - 1], msgs[|msgs| - 1];
      if last.Auth? {
        IdsBelowMeans(init, next);
      } else {
        IdsBelowMeans(init, next - 1);
        assert Ids(msgs) == Ids(init) + [last.id];
        if 2 <= next {
          var c := Consecutive(1, next - 1);
          assert Consecutive(1, next) == c + [next - 1];
          if Ids(msgs) == Consecutive(1, next) {
            assert (Ids(init) + [last.id])[..|Ids(init)|] == Ids(init);
            assert (c + [next - 1])[..|c|] == c;
            assert (c + [next - 1])[|c|] == next - 1;
          }
        }
      }
    }
  }

  /** Appending a run carrying the ids `id, id + 1, ...` to requests that
      used up the ids below `id` uses up the ids below `id + |run|`. */
  lemma IdsBelowExtends(outbox: seq<WsMessage>, run: seq<WsMessage>, id: int)
    requires IdsBelow(outbox, id)
    requires Ids(run) == Consecutive(id, id + |run|)
    ensures IdsBelow(outbox + run, id + |run|)
  {
    IdsBelowMeans(outbox, id);
    ConsecutiveExtends(outbox, run, id);
    IdsBelowMeans(outbox + run, id + |run|);
  }

  /** The restore commands as websocket messages numbered from `first`. */
  function NumberedRestore(cmds: seq<RestoreCommand>, first: int): (msgs: seq<WsMessage>)
    ensures |msgs| == |cmds|
  {
    if cmds == [] then []
    else NumberedRestore(cmds[..|cmds| - 1], first) + [RestoreMessage(cmds[|cmds| - 1], first + |cmds| - 1)]
  }

  /** The streamed samples as websocket messages numbered from `first`. */
  function NumberedStream(samples: seq<Sample>, first: int, lights: seq<string>): (msgs: seq<WsMessage>)
    ensures |msgs| == |samples|
  {
    if samples == [] then []
    else
      NumberedStream(samples[..|samples| - 1], first, lights) +
      [StreamMessage(first + |samples| - 1, samples[|samples| - 1], lights)]
  }

  /** Numbering one more restore command extends the run by its message. */
  lemma NumberedRestoreSnoc(cmds: seq<RestoreCommand>, c: RestoreCommand, first: int)
    ensures NumberedRestore(cmds + [c], first) == NumberedRestore(cmds, first) + [RestoreMessage(c, first + |cmds|)]
  {
    assert (cmds + [c])[..|cmds|] == cmds;
  }

  /** One more snapshot entry extends the numbered restore messages by its
      command's message, if it has one, under the next id. */
  lemma RestoreStep(items: Dict<string, Snapshot>, i: int, first: int)
    requires 0 <= i < |items|
    ensures var cmds, c := RestoreCommands(items[..i]), CommandFor(items[i]);
            NumberedRestore(RestoreCommands(items[..i + 1]), first) ==
            NumberedRestore(cmds, first) + (if c.Some? then [RestoreMessage(c.value, first + |cmds|)] else [])
  {
    assert items[..i + 1][..i] == items[..i];
    var cmds, c := RestoreCommands(items[..i]), CommandFor(items[i]);
    if c.Some? {
      assert RestoreCommands(items[..i + 1]) == cmds + [c.value];
      NumberedRestoreSnoc(cmds, c.value, first);
    } else {
      assert RestoreCommands(items[..i + 1]) == cmds;
    }
  }

  /** Numbering one more streamed sample extends the run by its message. */
  lemma NumberedStreamSnoc(samples: seq<Sample>, s: Sample, first: int, lights: seq<string>)
    ensures NumberedStream(samples + [s], first, lights) ==
            NumberedStream(samples, first, lights) + [StreamMessage(first + |samples|, s, lights)]
  {
    assert (samples + [s])[..|samples|] == samples;
  }

  /** Numbering two runs of samples one after the other numbers their
      concatenation. */
  lemma {:induction false} NumberedStreamAppend(a: seq<Sample>, b: seq<Sample>, first: int, lights: seq<string>)
    ensures NumberedStream(a + b, first, lights) ==
            NumberedStream(a, first, lights) + NumberedStream(b, first + |a|, lights)
  {
    if b == [] {
      assert a + b == a;
    } else {
      var init, last := b[..|b| - 1], b[|b| - 1];
      assert a + b == (a + init) + [last];
      NumberedStreamAppend(a, init, first, lights);
      NumberedStreamSnoc(a + init, last, first, lights);
      NumberedStreamSnoc(init, last, first + |a|, lights);
      assert init + [last] == b;
    }
  }

  /** An outbox that holds the messages of the samples `prev`, extended by
      the messages of `got` numbered on from there, holds the messages of
      `prev + got`. */
  lemma StreamStep(base: seq<WsMessage>, prev: seq<Sample>, got: seq<Sample>, first: int,
                   lights: seq<string>, before: seq<WsMessage>, after: seq<WsMessage>)
    requires before == base + NumberedStream(prev, first, lights)
    requires after == before + NumberedStream(got, first + |prev|, lights)
    ensures after == base + NumberedStream(prev + got, first, lights)
  {
    NumberedStreamAppend(prev, got, first, lights);
  }

  /** One sample numbered `first` is its turn_on under that id. */
  lemma NumberedStreamSingle(s: Sample, first: int, lights: seq<string>)
    ensures NumberedStream([s], first, lights) == [StreamMessage(first, s, lights)]
  {
    assert [s][..0] == [];
  }

  /** The streamed messages carry the ids `first, first + 1, ...`, in order. */
  lemma {:induction false} NumberedStreamIds(samples: seq<Sample>, first: int, lights: seq<string>)
    ensures Ids(NumberedStream(samples, first, lights)) == Consecutive(first, first + |samples|)
  {
    if samples != [] {
      var init := samples[..|samples| - 1];
      var msgs := NumberedStream(samples, first, lights);
      NumberedStreamIds(init, first, lights);
      assert msgs[..|msgs| - 1] == NumberedStream(init, first, lights);
    }
  }

  /** The restore messages carry the ids `first, first + 1, ...`, in order. */
  lemma {:induction false} NumberedRestoreIds(cmds: seq<RestoreCommand>, first: int)
    ensures Ids(NumberedRestore(cmds, first)) == Consecutive(first, first + |cmds|)
  {
    if cmds != [] {
      var init := cmds[..|cmds| - 1];
      var msgs := NumberedRestore(cmds, first);
      NumberedRestoreIds(init, first);
      assert msgs[..|msgs| - 1] == NumberedRestore(init, first);
    }
  }

  /** Each streamed message is the turn_on of its sample under its own id. */
  lemma {:induction false} NumberedStreamAt(samples: seq<Sample>, first: int, lights: seq<string>, j: int)
    requires 0 <= j < |samples|
    ensures NumberedStream(samples, first, lights)[j] == StreamMessage(first + j, samples[j], lights)
  {
    var init := samples[..|samples| - 1];
    if j < |init| {
      NumberedStreamAt(init, first, lights, j);
    }
  }

  /** Each restore message is its command's message under its own id. */
  lemma {:induction false} NumberedRestoreAt(cmds: seq<RestoreCommand>, first: int, j: int)
    requires 0 <= j < |cmds|
    ensures NumberedRestore(cmds, first)[j] == RestoreMessage(cmds[j], first + j)
  {
    var init := cmds[..|cmds| - 1];
    if j < |init| {
      NumberedRestoreAt(init, first, j);
    }
  }

  /** What the push loop writes, its first message numbered `first`: one
      turn_on per sample in `sent` (the samples taken from the queue before
      the loop ended) and, when the session was killed, the restore messages
      `cmds` after them. */
  function PushMessages(sent: seq<Sample>, killed: bool, first: int, lights: seq<string>,
                        cmds: seq<RestoreCommand>): seq<WsMessage>
  {
    if killed then NumberedStream(sent, first, lights) + NumberedRestore(cmds, first + |sent|)
    else NumberedStream(sent, first, lights)
  }

  /** The end of a push-loop iteration: with the samples so far streamed,
      a kill appends the restore messages numbered on from them. */
  lemma PushStep(base: seq<WsMessage>, sent: seq<Sample>, killed: bool, first: int, lights: seq<string>,
                 cmds: seq<RestoreCommand>, mid: seq<WsMessage>, after: seq<WsMessage>)
    requires mid == base + NumberedStream(sent, first, lights)
    requires killed ==> after == mid + NumberedRestore(cmds, first + |sent|)
    requires !killed ==> after == mid
    ensures after == base + PushMessages(sent, killed, first, lights, cmds)
  {
    if killed {
      assert base + NumberedStream(sent, first, lights) + NumberedRestore(cmds, first + |sent|) ==
             base + (NumberedStream(sent, first, lights) + NumberedRestore(cmds, first + |sent|));
    }
  }

  /** The push loop's messages carry the ids `first, first + 1, ...`. */
  lemma PushIds(sent: seq<Sample>, killed: bool, first: int, lights: seq<string>, cmds: seq<RestoreCommand>)
    ensures var msgs := PushMessages(sent, killed, first, lights, cmds);
            Ids(msgs) == Consecutive(first, first + |msgs|)
  {
    NumberedStreamIds(sent, first, lights);
    if killed {
      NumberedRestoreIds(cmds, first + |sent|);
      IdsJoin(NumberedStream(sent, first, lights), NumberedRestore(cmds, first + |sent|),
              first, first + |sent|, first + |sent| + |cmds|);
    }
  }

  /** What an authenticated websocket session writes, its first request
      numbered `first`: the state request; then, when every light could be
      snapshotted, the services request and what the push loop writes. */
  function SessionMessages(keys: seq<string>, result: seq<Entity>, polls: seq<Poll<Sample>>, killDuring: nat, first: int): seq<WsMessage>
  {
    var snap := StoreSnapshots(keys, LightEntities(result));
    if snap.None? then [GetStates(first)]
    else
      var sent := Received(polls[..LoopIterations(|polls|, killDuring)]);
      [GetStates(first), GetServices(first + 1)] +
      PushMessages(sent, killDuring < |polls|, first + 2, LightIds(result), RestoreCommands(snap.value))
  }

  // ---------------------------------------------------------------------
  // The auth handshake.
  // ---------------------------------------------------------------------

  /** What the connect step does with the first two received messages:
      whether it answers with an auth message, and what it sets the
      connection status to (None: leaves it as it was). */
  datatype HandshakeOutcome = HandshakeOutcome(sendsAuth: bool, status: Option<bool>)

  /** `first` and `second` are the `type` of the first and second received
      message, None where that receive raised. */
  function Handshake(first: Option<string>, second: Option<string>): (h: HandshakeOutcome)
    ensures h.sendsAuth <==> first == Some("auth_required")
    ensures h.status == Some(true) <==> first.Some? && second == Some("auth_ok")
    ensures h.status.None? <==>
              first.Some? && second.Some? && second.value != "auth_ok" && second.value != "auth_invalid"
  {
    if first.None? then HandshakeOutcome(false, Some(false))
    else
      var auth := first.value == "auth_required";
      if second.None? then HandshakeOutcome(auth, Some(false))
      else if second.value == "auth_ok" then HandshakeOutcome(auth, Some(true))
      else if second.value == "auth_invalid" then HandshakeOutcome(auth, Some(false))
      else HandshakeOutcome(auth, None)
  }

  /** `"ws://" + ip + ":" + port + "/api/websocket"`. */
  function WebSocketUrl(ip: string, port: string): (url: string)
    ensures |url| == |ip| + |port| + 20
    ensures StartsWith(url, "ws://")
    ensures url[5..5 + |ip|] == ip && url[5 + |ip|] == ':'
    ensures url[6 + |ip|..|url| - 14] == port
    ensures url[|url| - 14..] == "/api/websocket"
  {
    "ws://" + ip + ":" + port + "/api/websocket"
  }
}
