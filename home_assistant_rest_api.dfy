/** The plain REST client: builds its base URL and header, fetches the light
    ids, and switches every light to a colour or off, one POST per light.
    The requests issued are an outbox, in order. */
module RestApiClient {
  import opened Common
  import opened HomeAssistant
  import opened HttpRequests

  /** Python's `s.rstrip("/")`: every trailing slash removed. */
  function RStripSlash(s: string): (r: string)
    ensures |r| <= |s| && r == s[..|r|]
    ensures r == [] || r[|r| - 1] != '/'
  {
    if s == [] || s[|s| - 1] != '/' then s else RStripSlash(s[..|s| - 1])
  }

  /** What `rstrip` removes is slashes only. */
  lemma {:induction false} RStripSlashRemovesSlashes(s: string)
    ensures forall i :: |RStripSlash(s)| <= i < |s| ==> s[i] == '/'
    decreases |s|
  {
    if s != [] && s[|s| - 1] == '/' {
      RStripSlashRemovesSlashes(s[..|s| - 1]);
    }
  }

  /** Stripping twice strips nothing more. */
  lemma RStripSlashIdempotent(s: string)
    ensures RStripSlash(RStripSlash(s)) == RStripSlash(s)
  {
  }

  /** The base URL: the server URL without trailing slashes, then "/api".
      What precedes "/api" is a prefix of the server URL that does not end
      in a slash, and everything of the server URL after it is a slash. */
  function RestApiUrl(server: string): (url: string)
    ensures |url| >= 4 && url[|url| - 4..] == "/api"
    ensures var b := url[..|url| - 4];
            |b| <= |server| && b == server[..|b|] && (b == [] || b[|b| - 1] != '/') &&
            forall i :: |b| <= i < |server| ==> server[i] == '/'
  {
    RStripSlashRemovesSlashes(server);
    var stripped := RStripSlash(server);
    assert (stripped + "/api")[..|stripped|] == stripped;
    stripped + "/api"
  }

  /** Extra slashes at the end of the server URL make no difference. */
  lemma RestApiUrlIgnoresTrailingSlashes(server: string, k: nat)
    ensures RestApiUrl(server + seq(k, _ => '/')) == RestApiUrl(RStripSlash(server))
  {
    SlashesStrip(server, k);
    RStripSlashIdempotent(server);
  }

  lemma {:induction false} SlashesStrip(s: string, k: nat)
    ensures RStripSlash(s + seq(k, _ => '/')) == RStripSlash(s)
  {
    if k > 0 {
      var t := s + seq(k, _ => '/');
      assert t[..|t| - 1] == s + seq(k - 1, _ => '/');
      SlashesStrip(s, k - 1);
    } else {
      assert s + seq(k, _ => '/') == s;
    }
  }

  /** One colour POST per light, in order, each `{entity_id, rgb_color}`. */
  function ControlRequests(lights: seq<string>, color: seq<int>): (rs: seq<HttpRequest>)
    ensures |rs| == |lights|
  {
    seq(|lights|, j requires 0 <= j < |lights| => Post(LightTurnOnPath, ColorOne(lights[j], color)))
  }

  /** One turn_off POST per light, in order, each `{entity_id}`. */
  function OffRequests(lights: seq<string>): (rs: seq<HttpRequest>)
    ensures |rs| == |lights|
  {
    seq(|lights|, j requires 0 <= j < |lights| => Post(LightTurnOffPath, EntityOnly(lights[j])))
  }

  class HomeAssistantRestApi {
    const baseUrl: string
    const authorization: string
    /** `lights`; None until it is fetched. */
    var lights: Option<seq<string>>
    /** Every request issued, in order; each goes to `baseUrl` plus its path. */
    var outbox: seq<HttpRequest>

    constructor(server: string, token: string)
      ensures baseUrl == RestApiUrl(server) && authorization == "Bearer " + token
      ensures lights.None? && outbox == []
    {
      baseUrl, authorization := RestApiUrl(server), "Bearer " + token;
      lights, outbox := None, [];
    }

    /** `fetch_all_lights`: GET /states, then the ids of the entities that
        start with "light", in order. */
    method FetchAllLights(result: seq<Entity>)
      modifies this`outbox, this`lights
      ensures outbox == old(outbox) + [Get(States)]
      ensures lights == Some(LightIds(result))
    {
      outbox := outbox + [Get(States)];
      lights := Some(EntityIds(LightEntities(result)));
    }

    /** `control_lights`: one turn_on POST per light with the colour. */
    method ControlLights(color: seq<int>)
      requires lights.Some?
      modifies this`outbox
      ensures outbox == old(outbox) + ControlRequests(lights.value, color)
    {
      var ls := lights.value;
      var i := 0;
      while i < |ls|
        invariant 0 <= i <= |ls|
        invariant outbox == old(outbox) + ControlRequests(ls[..i], color)
      {
        assert ControlRequests(ls[..i + 1], color) == ControlRequests(ls[..i], color) + [Post(LightTurnOnPath, ColorOne(ls[i], color))];
        outbox := outbox + [Post(LightTurnOnPath, ColorOne(ls[i], color))];
        i := i + 1;
      }
      assert ls[..i] == ls;
    }

    /** `turn_lights_off`: one turn_off POST per light. */
    method TurnLightsOff()
      requires lights.Some?
      modifies this`outbox
      ensures outbox == old(outbox) + OffRequests(lights.value)
    {
      var ls := lights.value;
      var i := 0;
      while i < |ls|
        invariant 0 <= i <= |ls|
        invariant outbox == old(outbox) + OffRequests(ls[..i])
      {
        assert OffRequests(ls[..i + 1]) == OffRequests(ls[..i]) + [Post(LightTurnOffPath, EntityOnly(ls[i]))];
        outbox := outbox + [Post(LightTurnOffPath, EntityOnly(ls[i]))];
        i := i + 1;
      }
      assert ls[..i] == ls;
    }
  }

  /** Every light of the list gets a colour POST, and every POST is a
      turn_on carrying exactly the `entity_id` of a listed light and the
      colour. */
  lemma ControlRequestsOnePerLight(lights: seq<string>, color: seq<int>)
    ensures forall l :: l in lights <==> Post(LightTurnOnPath, ColorOne(l, color)) in ControlRequests(lights, color)
    ensures forall r :: r in ControlRequests(lights, color) ==>
              r.Post? && r.endpoint == LightTurnOnPath && r.body.ColorOne? && r.body.entityId in lights &&
              BodyJson(r.body).Keys == {"entity_id", "rgb_color"}
  {
    var rs := ControlRequests(lights, color);
    forall l | l in lights ensures Post(LightTurnOnPath, ColorOne(l, color)) in rs {
      var j :| 0 <= j < |lights| && lights[j] == l;
      assert rs[j] == Post(LightTurnOnPath, ColorOne(l, color));
    }
  }

  /** Every light of the list gets a turn_off POST, and every POST is a
      turn_off carrying exactly the `entity_id` of a listed light. */
  lemma OffRequestsOnePerLight(lights: seq<string>)
    ensures forall l :: l in lights <==> Post(LightTurnOffPath, EntityOnly(l)) in OffRequests(lights)
    ensures forall r :: r in OffRequests(lights) ==>
              r.Post? && r.endpoint == LightTurnOffPath && r.body.EntityOnly? && r.body.entityId in lights &&
              BodyJson(r.body).Keys == {"entity_id"}
  {
    var rs := OffRequests(lights);
    forall l | l in lights ensures Post(LightTurnOffPath, EntityOnly(l)) in rs {
      var j :| 0 <= j < |lights| && lights[j] == l;
      assert rs[j] == Post(LightTurnOffPath, EntityOnly(l));
    }
  }
}
