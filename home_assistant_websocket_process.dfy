/** The websocket streaming session run as its own process: it
    authenticates, snapshots the lights, streams every queued sample as a
    turn_on for all lights and, when killed, replays the snapshot and closes
    the socket. The socket is an outbox of the messages written to it, in
    order; what the server sends back is given as parameters. */
module WebSocketProcess {
  import opened Common
  import opened HomeAssistant

  class HomeAssistantWebSocketProcess {
    const baseUrl: string
    const apiKey: string
    /** The attributes copied into each light's snapshot. */
    const attributeKeys: seq<string>
    var connectionStatus: bool
    /** The id the next request will carry. */
    var id: int
    /** `__initial_light_states`; None until it is stored. */
    var initialLightStates: Option<Dict<string, Snapshot>>
    /** `__lights`; None until it is stored. */
    var lights: Option<seq<string>>
    /** Every message written to the socket, in order. */
    var outbox: seq<WsMessage>
    var socketOpen: bool
    var loopStopped: bool

    /** The requests sent so far carry the ids 1, 2, ..., id - 1, in order:
        ids are unique and strictly increasing. */
    ghost predicate Valid()
      reads this
    {
      IdsBelow(outbox, id)
    }

    /** A session before `run`: disconnected, next id 1, nothing sent. */
    constructor(ip: string, port: string, key: string)
      ensures Valid()
      ensures baseUrl == WebSocketUrl(ip, port) && apiKey == key && attributeKeys == AttributeKeys
      ensures !connectionStatus && id == 1 && outbox == []
      ensures initialLightStates.None? && lights.None? && !socketOpen && !loopStopped
    {
      baseUrl, apiKey, attributeKeys := WebSocketUrl(ip, port), key, AttributeKeys;
      connectionStatus, id, outbox := false, 1, [];
      initialLightStates, lights := None, None;
      socketOpen, loopStopped := false, false;
    }

    /** `__connect`: the socket opens; `first` and `second` are the types of
        the two messages received (None where the receive raised). */
    method Connect(first: Option<string>, second: Option<string>)
      requires Valid()
      modifies this`outbox, this`connectionStatus, this`socketOpen
      ensures Valid() && socketOpen
      ensures var h := Handshake(first, second);
              outbox == old(outbox) + (if h.sendsAuth then [Auth(apiKey)] else []) &&
              connectionStatus == if h.status.Some? then h.status.value else old(connectionStatus)
    {
      socketOpen := true;
      if first.None? {
        connectionStatus := false;
        return;
      }
      if first.value == "auth_required" {
        assert (outbox + [Auth(apiKey)])[..|outbox|] == outbox;
        outbox := outbox + [Auth(apiKey)];
      }
      if second.None? {
        connectionStatus := false;
        return;
      }
      if second.value == "auth_ok" {
        connectionStatus := true;
      } else if second.value == "auth_invalid" {
        connectionStatus := false;
      }
    }

    /** `__store_initial_light_states`: one `d[entity_id] = record` per state,
        in order; false where a record cannot be built (the `KeyError`), and
        then nothing is stored. */
    method StoreInitialLightStates(states: seq<Entity>) returns (ok: bool)
      modifies this`initialLightStates
      ensures ok <==> StoreSnapshots(attributeKeys, states).Some?
      ensures initialLightStates == if ok then StoreSnapshots(attributeKeys, states) else old(initialLightStates)
    {
      var d: Dict<string, Snapshot> := [];
      var i := 0;
      while i < |states|
        invariant 0 <= i <= |states|
        invariant StoreSnapshots(attributeKeys, states[..i]) == Some(d)
      {
        assert states[..i + 1][..i] == states[..i];
        var record := Capture(attributeKeys, states[i]);
        if record.None? {
          MissingKeyFails(attributeKeys, states, i);
          return false;
        }
        d := Put(d, states[i].entityId, record.value);
        i := i + 1;
      }
      assert states[..i] == states;
      initialLightStates := Some(d);
      ok := true;
    }

    /** `__fetch_light_states`: requests the state list with the current id,
        keeps the entities whose id starts with "light", snapshots them and
        stores their ids as the light list. */
    method FetchLightStates(result: seq<Entity>) returns (ok: bool)
      requires Valid()
      modifies this`outbox, this`id, this`initialLightStates, this`lights
      ensures Valid()
      ensures outbox == old(outbox) + [GetStates(old(id))] && id == old(id) + 1
      ensures ok <==> StoreSnapshots(attributeKeys, LightEntities(result)).Some?
      ensures ok ==> initialLightStates == StoreSnapshots(attributeKeys, LightEntities(result)) &&
                     lights == Some(LightIds(result))
      ensures !ok ==> initialLightStates == old(initialLightStates) && lights == old(lights)
    {
      IdsBelowExtends(outbox, [GetStates(id)], id);
      outbox := outbox + [GetStates(id)];
      id := id + 1;
      var states := LightEntities(result);
      ok := StoreInitialLightStates(states);
      if ok {
        lights := Some(EntityIds(states));
      }
    }

    /** `__fetch_light_actions`: its answer is discarded; it only uses up an id. */
    method FetchLightActions()
      requires Valid()
      modifies this`outbox, this`id
      ensures Valid()
      ensures outbox == old(outbox) + [GetServices(old(id))] && id == old(id) + 1
    {
      IdsBelowExtends(outbox, [GetServices(id)], id);
      outbox := outbox + [GetServices(id)];
      id := id + 1;
    }

    /** `__send_light_state`: turn_on for the whole light list with the
        sample's brightness and colour, under the current id. */
    method SendLightState(s: Sample)
      requires Valid() && lights.Some?
      modifies this`outbox, this`id
      ensures Valid()
      ensures outbox == old(outbox) + [StreamMessage(old(id), s, lights.value)] && id == old(id) + 1
    {
      IdsBelowExtends(outbox, [StreamMessage(id, s, lights.value)], id);
      outbox := outbox + [StreamMessage(id, s, lights.value)];
      id := id + 1;
    }

    /** `__recover_initial_state`: builds the restore messages, then sends
        them all. */
    method RecoverInitialState()
      requires Valid() && initialLightStates.Some?
      modifies this`outbox, this`id
      ensures Valid()
      ensures var cmds := RestoreCommands(initialLightStates.value);
              outbox == old(outbox) + NumberedRestore(cmds, old(id)) && id == old(id) + |cmds|
    {
      var messages := RestoreMessages(initialLightStates.value);
      NumberedRestoreIds(RestoreCommands(initialLightStates.value), old(id));
      IdsBelowExtends(outbox, messages, old(id));
      outbox := outbox + messages;
    }

    /** The loop of `__recover_initial_state`: walks the snapshot in order and
        builds one message per "off" or "on" entry, each taking the current
        id, which then goes up by one. */
    method RestoreMessages(items: Dict<string, Snapshot>) returns (messages: seq<WsMessage>)
      modifies this`id
      ensures messages == NumberedRestore(RestoreCommands(items), old(id))
      ensures id == old(id) + |messages|
    {
      messages := [];
      var i := 0;
      while i < |items|
        invariant 0 <= i <= |items|
        invariant messages == NumberedRestore(RestoreCommands(items[..i]), old(id))
        invariant id == old(id) + |messages|
      {
        RestoreStep(items, i, old(id));
        var c := CommandFor(items[i]);
        if c.Some? {
          messages := messages + [RestoreMessage(c.value, id)];
          id := id + 1;
        }
        i := i + 1;
      }
      assert items[..i] == items;
    }

    /** `__close_socket`. */
    method CloseSocket()
      modifies this`socketOpen, this`connectionStatus
      ensures !socketOpen && !connectionStatus
    {
      socketOpen := false;
      connectionStatus := false;
    }

    /** `kill`: restore first, then close, then stop the event loop. */
    method Kill()
      requires Valid() && initialLightStates.Some?
      modifies this`outbox, this`id, this`socketOpen, this`connectionStatus, this`loopStopped
      ensures Valid()
      ensures var cmds := RestoreCommands(initialLightStates.value);
              outbox == old(outbox) + NumberedRestore(cmds, old(id)) && id == old(id) + |cmds|
      ensures !socketOpen && !connectionStatus && loopStopped
    {
      RecoverInitialState();
      CloseSocket();
      loopStopped := true;
    }

    /** `__push_states`: each iteration takes one poll of the queue and, for
        a sample, sends it; a timeout only loops again. After the iteration,
        the loop ends if the connection status is false. The session is
        killed during iteration `killDuring` (never, when that is past the
        polls), after that iteration's sample is dispatched. */
    method PushStates(polls: seq<Poll<Sample>>, killDuring: nat) returns (iterations: nat)
      requires Valid() && connectionStatus && lights.Some? && initialLightStates.Some?
      modifies this`outbox, this`id, this`socketOpen, this`connectionStatus, this`loopStopped
      ensures Valid()
      ensures iterations == LoopIterations(|polls|, killDuring)
      ensures connectionStatus <==> killDuring >= |polls|
      ensures outbox == old(outbox) + PushMessages(Received(polls[..iterations]), killDuring < |polls|, old(id),
                                                   lights.value, RestoreCommands(initialLightStates.value))
    {
      var i := 0;
      ghost var sent: seq<Sample> := [];
      while i < |polls|
        invariant 0 <= i <= |polls| && i <= killDuring
        invariant Valid() && connectionStatus
        invariant sent == Received(polls[..i])
        invariant outbox == old(outbox) + NumberedStream(sent, old(id), lights.value)
        invariant id == old(id) + |sent|
      {
        ReceivedSnoc(polls, i);
        var stop := Iterate(polls[i], i == killDuring, old(outbox), sent, old(id));
        sent := sent + Payload(polls[i]);
        i := i + 1;
        if stop {
          return i;
        }
      }
      iterations := i;
    }

    /** One iteration of `__push_states` on the poll `p`: the dispatch of
        its sample, the kill when it comes now, then the status check. The
        outbox so far is `base` followed by the messages of the samples
        `prev`, numbered from `first`. */
    method Iterate(p: Poll<Sample>, killNow: bool, ghost base: seq<WsMessage>, ghost prev: seq<Sample>, ghost first: int)
      returns (stop: bool)
      requires Valid() && connectionStatus && lights.Some? && initialLightStates.Some?
      requires outbox == base + NumberedStream(prev, first, lights.value) && id == first + |prev|
      modifies this`outbox, this`id, this`socketOpen, this`connectionStatus, this`loopStopped
      ensures Valid()
      ensures stop == killNow && connectionStatus == !killNow
      ensures outbox == base + PushMessages(prev + Payload(p), killNow, first, lights.value,
                                            RestoreCommands(initialLightStates.value))
      ensures !killNow ==> id == first + |prev + Payload(p)|
    {
      ghost var before := outbox;
      Dispatch(p);
      ghost var mid := outbox;
      StreamStep(base, prev, Payload(p), first, lights.value, before, mid);
      stop := KillPoint(killNow);
      PushStep(base, prev + Payload(p), killNow, first, lights.value, RestoreCommands(initialLightStates.value), mid, outbox);
    }

    /** The send half of one iteration of `__push_states`: a sample goes out
        as the next turn_on, a timeout sends nothing. */
    method Dispatch(p: Poll<Sample>)
      requires Valid() && lights.Some?
      modifies this`outbox, this`id
      ensures Valid()
      ensures outbox == old(outbox) + NumberedStream(Payload(p), old(id), lights.value)
      ensures id == old(id) + |Payload(p)|
    {
      if p.Got? {
        SendLightState(p.value);
        NumberedStreamSingle(p.value, old(id), lights.value);
      }
    }

    /** The end of one iteration of `__push_states`: the kill, when it
        comes during this iteration, then the check of the connection
        status that ends the loop. */
    method KillPoint(killNow: bool) returns (stop: bool)
      requires Valid() && connectionStatus && initialLightStates.Some?
      modifies this`outbox, this`id, this`socketOpen, this`connectionStatus, this`loopStopped
      ensures Valid()
      ensures stop == killNow && connectionStatus == !killNow
      ensures killNow ==> outbox == old(outbox) + NumberedRestore(RestoreCommands(initialLightStates.value), old(id))
      ensures !killNow ==> outbox == old(outbox) && id == old(id)
    {
      if killNow {
        Kill();
      }
      stop := !connectionStatus;
    }

    /** `run`: connect; without a successful handshake return before any
        other message; otherwise go on with the session. */
    method Run(first: Option<string>, second: Option<string>, result: seq<Entity>,
               polls: seq<Poll<Sample>>, killDuring: nat)
      requires Valid() && !connectionStatus
      modifies this`outbox, this`id, this`socketOpen, this`connectionStatus, this`loopStopped,
               this`initialLightStates, this`lights
      ensures Valid()
      ensures var h := Handshake(first, second);
              var auth := if h.sendsAuth then [Auth(apiKey)] else [];
              h.status != Some(true) ==> outbox == old(outbox) + auth && id == old(id)
      ensures var h := Handshake(first, second);
              var auth := if h.sendsAuth then [Auth(apiKey)] else [];
              h.status == Some(true) ==> outbox == old(outbox) + auth + SessionMessages(attributeKeys, result, polls, killDuring, old(id))
    {
      Connect(first, second);
      if !connectionStatus {
        return;
      }
      Session(result, polls, killDuring);
    }

    /** The rest of `run` once authenticated: fetch the states (a failed
        snapshot ends it there) and the actions, then stream until killed. */
    method Session(result: seq<Entity>, polls: seq<Poll<Sample>>, killDuring: nat)
      requires Valid() && connectionStatus
      modifies this`outbox, this`id, this`socketOpen, this`connectionStatus, this`loopStopped,
               this`initialLightStates, this`lights
      ensures Valid()
      ensures outbox == old(outbox) + SessionMessages(attributeKeys, result, polls, killDuring, old(id))
    {
      ghost var base := outbox;
      var ok := FetchLightStates(result);
      if !ok {
        return;
      }
      FetchLightActions();
      ghost var head := [GetStates(old(id)), GetServices(old(id) + 1)];
      assert outbox == base + head;
      ghost var cmds := RestoreCommands(initialLightStates.value);
      var n := PushStates(polls, killDuring);
      ghost var push := PushMessages(Received(polls[..n]), killDuring < |polls|, old(id) + 2, lights.value, cmds);
      assert outbox == base + head + push;
      assert base + head + push == base + (head + push);
    }
  }
}
