/** internal/mockspec: the record shapes of a stored mock and the name of the
    file it is stored in. */
module MockSpec {
  import opened Wrappers
  import opened Errors
  import opened Fs
  import opened Http
  import Text

  /** A decoded JSON value (numbers keep their literal text). */
  datatype JsonValue =
    | JNull
    | JBool(b: bool)
    | JNumber(literal: string)
    | JString(s: string)
    | JArray(items: seq<JsonValue>)
    | JObject(fields: map<string, JsonValue>)

  /** The stored body is a `map[string]any`: only a JSON object fits. */
  type JsonObject = map<string, JsonValue>

  /** SpecRequest: the request half of a stored mock. */
  datatype SpecRequest = SpecRequest(headers: Header, verb: string, requestPath: string)

  /** SpecBodyResponse (with SpecResponse's single field inlined): the response
      headers and the decoded body, None while the body map is still nil. */
  datatype SpecBodyResponse = SpecBodyResponse(headers: Header, body: Option<JsonObject>)

  /** The part of the JSON writer's state that is encoded into the artifact file. */
  datatype Artifact = Artifact(request: SpecRequest, response: SpecBodyResponse)

  /** encoding/json as the JSON writer uses it: decoding a body into a
      `map[string]any` (partial) and encoding an artifact with its indentation. */
  datatype JsonCodec = JsonCodec(decodeObject: Bytes -> Result<JsonObject, Error>,
                                 encode: Artifact -> Bytes)

  /** MockFileNameFromPath: the path with every '/' turned into '_', then ".json". */
  function MockFileNameFromPath(p: string): (r: string)
    ensures |r| == |p| + 5
    ensures forall i :: 0 <= i < |p| ==> r[i] == (if p[i] == '/' then '_' else p[i])
    ensures r[|p|..] == ".json"
    ensures '/' !in r
  {
    var r := Text.ReplaceChar(p, '/', '_') + ".json";
    assert forall i :: 0 <= i < |r| ==> r[i] != '/' by {
      forall i | 0 <= i < |r| ensures r[i] != '/' {
        if i >= |p| { assert r[i] == ".json"[i - |p|]; }
      }
    }
    r
  }

  /** The mapping is not injective: a '/' and a '_' in the same place collide. */
  lemma FileNameCollision()
    ensures MockFileNameFromPath("/a/b") == MockFileNameFromPath("/a_b") == "_a_b.json"
  {
    NameFromCharacters("/a/b", "_a_b.json");
    NameFromCharacters("/a_b", "_a_b.json");
  }

  /** The recorded example: GET /users/42 is stored as `_users_42.json`. */
  lemma UsersExample()
    ensures MockFileNameFromPath("/users/42") == "_users_42.json"
  {
    NameFromCharacters("/users/42", "_users_42.json");
  }

  /** The postconditions of MockFileNameFromPath determine its result. */
  lemma NameFromCharacters(p: string, name: string)
    requires |name| == |p| + 5 && name[|p|..] == ".json"
    requires forall i :: 0 <= i < |p| ==> name[i] == (if p[i] == '/' then '_' else p[i])
    ensures MockFileNameFromPath(p) == name
  {
    var r := MockFileNameFromPath(p);
    forall i | 0 <= i < |r| ensures r[i] == name[i] {
      if i >= |p| { assert r[i] == r[|p|..][i - |p|]; assert name[i] == name[|p|..][i - |p|]; }
    }
  }
}
