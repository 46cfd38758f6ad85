/** The plain websocket client: connects and authenticates, fetches the
    states and services, and sends colour commands, every request taking the
    next id. The socket is an outbox of the messages written to it. */
module WebSocketClient {
  import opened Common
  import opened HomeAssistant

  /** How `connect` ends: it raises (a receive failed), or it returns True,
      False, or None (it falls through for any other second message). */
  datatype ConnectOutcome = Raised | Returned(value: Option<bool>)

  class HomeAssistantWebSocket {
    const baseUrl: string
    const apiKey: string
    /** The id the next request will carry. */
    var id: int
    /** `lights`; None until it is fetched. */
    var lights: Option<seq<string>>
    /** Every message written to the socket, in order. */
    var outbox: seq<WsMessage>
    var socketOpen: bool

    /** The requests sent so far carry the ids 1, 2, ..., id - 1, in order. */
    ghost predicate Valid()
      reads this
    {
      IdsBelow(outbox, id)
    }

    /** A client before `connect`: next id 1, nothing sent. */
    constructor(ip: string, port: string, key: string)
      ensures Valid()
      ensures baseUrl == WebSocketUrl(ip, port) && apiKey == key
      ensures id == 1 && outbox == [] && lights.None? && !socketOpen
    {
      baseUrl, apiKey := WebSocketUrl(ip, port), key;
      id, outbox, lights, socketOpen := 1, [], None, false;
    }

    /** `connect`: `first` and `second` are the types of the two messages
        received (None where the receive raised). The auth message is sent
        only after an "auth_required"; the result is True for "auth_ok",
        False for "auth_invalid" and None for anything else. */
    method Connect(first: Option<string>, second: Option<string>) returns (r: ConnectOutcome)
      requires Valid()
      modifies this`outbox, this`socketOpen
      ensures Valid() && socketOpen
      ensures outbox == old(outbox) + (if first == Some("auth_required") then [Auth(apiKey)] else [])
      ensures r.Raised? <==> first.None? || second.None?
      ensures r.Returned? ==> r.value == Handshake(first, second).status
    {
      socketOpen := true;
      if first.None? {
        return Raised;
      }
      if first.value == "auth_required" {
        assert (outbox + [Auth(apiKey)])[..|outbox|] == outbox;
        outbox := outbox + [Auth(apiKey)];
      }
      if second.None? {
        return Raised;
      }
      if second.value == "auth_ok" {
        r := Returned(Some(true));
      } else if second.value == "auth_invalid" {
        r := Returned(Some(false));
      } else {
        r := Returned(None);
      }
    }

    /** `fetch_light_states`: requests the states with the current id, then
        keeps the ids of the entities that start with "light", in order. */
    method FetchLightStates(result: seq<Entity>)
      requires Valid()
      modifies this`outbox, this`id, this`lights
      ensures Valid()
      ensures outbox == old(outbox) + [GetStates(old(id))] && id == old(id) + 1
      ensures lights == Some(LightIds(result))
    {
      IdsBelowExtends(outbox, [GetStates(id)], id);
      outbox := outbox + [GetStates(id)];
      id := id + 1;
      lights := Some(EntityIds(LightEntities(result)));
    }

    /** `fetch_light_actions`: its answer is discarded; it only uses up an id. */
    method FetchLightActions()
      requires Valid()
      modifies this`outbox, this`id
      ensures Valid()
      ensures outbox == old(outbox) + [GetServices(old(id))] && id == old(id) + 1
    {
      IdsBelowExtends(outbox, [GetServices(id)], id);
      outbox := outbox + [GetServices(id)];
      id := id + 1;
    }

    /** `send_light_state`: turn_on for the whole light list with the given
        brightness and colour, under the current id. */
    method SendLightState(brightness: int, color: seq<int>)
      requires Valid() && lights.Some?
      modifies this`outbox, this`id
      ensures Valid()
      ensures outbox == old(outbox) + [StreamMessage(old(id), Sample(brightness, color), lights.value)]
      ensures id == old(id) + 1
    {
      var m := CallService(id, LightTurnOn, Color(brightness, color), Lights(lights.value), false);
      IdsBelowExtends(outbox, [m], id);
      id := id + 1;
      outbox := outbox + [m];
    }

    /** `close_socket`. */
    method CloseSocket()
      modifies this`socketOpen
      ensures !socketOpen
    {
      socketOpen := false;
    }
  }
}
