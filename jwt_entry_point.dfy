/** The authentication entry point: the 401 answer to a request that reached
    a protected endpoint unauthenticated, and the message chosen from the
    request's Authorization header. */
module JwtEntryPoint {
  import opened Seqs
  import opened Text

  const Unauthorized: int := 401

  const AuthenticationRequired: string := "Authentication required"
  const InvalidOrExpiredToken: string := "Invalid or expired token"
  const InvalidHeaderFormat: string := "Invalid authorization header format. Use 'Bearer <token>'"

  /** The values the JSON body holds. */
  datatype JsonValue = JsonString(s: string) | JsonNumber(n: int)

  /** What the entry point writes: the response status and the JSON body. */
  datatype ErrorResponse = ErrorResponse(status: int, body: map<string, JsonValue>)

  /** `commence`. `authHeader` is the Authorization header, `None` when the
      request has none; the current time, already rendered, is a parameter. */
  method Commence(authHeader: Option<string>, servletPath: string, timestamp: string)
    returns (response: ErrorResponse)
    ensures response.status == Unauthorized
    ensures response.body.Keys == {"timestamp", "status", "error", "message", "path"}
    ensures response.body["status"] == JsonNumber(Unauthorized)
    ensures response.body["error"] == JsonString("Unauthorized")
    ensures response.body["path"] == JsonString(servletPath)
    ensures response.body["timestamp"] == JsonString(timestamp)
    ensures authHeader.None? ==> response.body["message"] == JsonString(AuthenticationRequired)
    ensures authHeader.Some? && StartsWith(authHeader.value, "Bearer ") ==>
              response.body["message"] == JsonString(InvalidOrExpiredToken)
    ensures authHeader.Some? && !StartsWith(authHeader.value, "Bearer ") ==>
              response.body["message"] == JsonString(InvalidHeaderFormat)
  {
    var status := Unauthorized;
    var message := AuthenticationRequired;
    if authHeader.Some? && StartsWith(authHeader.value, "Bearer ") {
      message := InvalidOrExpiredToken;
    } else if authHeader.Some? {
      message := InvalidHeaderFormat;
    }
    var body: map<string, JsonValue> := map[];
    body := body["timestamp" := JsonString(timestamp)];
    body := body["status" := JsonNumber(Unauthorized)];
    body := body["error" := JsonString("Unauthorized")];
    body := body["message" := JsonString(message)];
    body := body["path" := JsonString(servletPath)];
    response := ErrorResponse(status, body);
  }

  /** The three messages are different, so the message tells the three cases apart. */
  lemma MessagesDistinct()
    ensures AuthenticationRequired != InvalidOrExpiredToken
    ensures AuthenticationRequired != InvalidHeaderFormat
    ensures InvalidOrExpiredToken != InvalidHeaderFormat
  {
    assert AuthenticationRequired[0] != InvalidOrExpiredToken[0];
    assert |AuthenticationRequired| != |InvalidHeaderFormat|;
    assert |InvalidOrExpiredToken| != |InvalidHeaderFormat|;
  }

  /** The prefix test is case-sensitive and needs the space: these headers
      all get the format message. */
  lemma NotBearerExamples()
    ensures !StartsWith("bearer x", "Bearer ")
    ensures !StartsWith("Bearer", "Bearer ")
    ensures !StartsWith("Basic x", "Bearer ")
    ensures StartsWith("Bearer abc", "Bearer ")
  {
    assert "bearer x"[..7][0] != "Bearer "[0];
    assert "Basic x"[..7][1] != "Bearer "[1];
    assert "Bearer abc"[..7] == "Bearer ";
  }
}
