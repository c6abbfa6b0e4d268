/**
 * Requests and response classification of the network service: every
 * request carries a bearer token and a JSON content type, the task
 * endpoints single out status 403, and the other endpoints only tell 2xx
 * from everything else.
 */
module Http {
  import opened Wrappers
  import opened Payload

  /** What a call ends with: success, `AuthError.forbidden`, or `URLError(.badServerResponse)`. */
  datatype Outcome = Success | Forbidden | BadServerResponse

  /** The status code of the response, `None` when it is not an HTTP response at all. */
  type Status = Option<int>

  predicate IsSuccessful(code: int)
  {
    200 <= code <= 299
  }

  /** The guards of the task endpoints (`fetchTasks`, `updateTask(s)`, `createTask`, `deleteTasks`). */
  function ClassifyTaskResponse(status: Status): (r: Outcome)
    ensures r == Success <==> status.Some? && IsSuccessful(status.value)
    ensures r == Forbidden <==> status == Some(403)
    ensures status.None? ==> r == BadServerResponse
  {
    match status
    case None => BadServerResponse
    case Some(code) =>
      if code == 403 then Forbidden
      else if !IsSuccessful(code) then BadServerResponse
      else Success
  }

  /** The single guard of the project and label endpoints. */
  function ClassifyPlainResponse(status: Status): (r: Outcome)
    ensures r != Forbidden
    ensures r == Success <==> status.Some? && IsSuccessful(status.value)
  {
    if status.Some? && IsSuccessful(status.value) then Success else BadServerResponse
  }

  /** The two classifications agree except that a 403 is reported as forbidden only by the task endpoints. */
  lemma ClassificationsAgree(status: Status)
    ensures ClassifyTaskResponse(status) != Forbidden ==> ClassifyPlainResponse(status) == ClassifyTaskResponse(status)
    ensures ClassifyTaskResponse(status) == Forbidden ==> ClassifyPlainResponse(status) == BadServerResponse
  {
  }

  type Headers = map<string, string>

  datatype Request = Request(path: string, verb: string, headers: Headers, body: Option<Json>)

  const BearerPrefix: string := "Bearer "

  /** `createAuthenticatedRequest`. */
  function CreateAuthenticatedRequest(path: string, verb: string, token: string): (r: Request)
    ensures r.path == path && r.verb == verb && r.body.None?
    ensures r.headers.Keys == {"Authorization", "Content-Type"}
    ensures r.headers["Content-Type"] == "application/json"
    ensures BearerToken(r.headers) == Some(token)
  {
    Request(path, verb, map["Authorization" := BearerPrefix + token, "Content-Type" := "application/json"], None)
  }

  /** What a server reads back as the token of a request. */
  function BearerToken(headers: Headers): (r: Option<string>)
    ensures r.Some? ==> "Authorization" in headers && headers["Authorization"] == BearerPrefix + r.value
  {
    if "Authorization" in headers then
      var v := headers["Authorization"];
      if |BearerPrefix| <= |v| && v[..|BearerPrefix|] == BearerPrefix then
        assert v == BearerPrefix + v[|BearerPrefix|..];
        Some(v[|BearerPrefix|..])
      else None
    else None
  }

  /** Different tokens give different requests. */
  lemma TokenDetermined(path: string, verb: string, a: string, b: string)
    ensures CreateAuthenticatedRequest(path, verb, a) == CreateAuthenticatedRequest(path, verb, b) <==> a == b
  {
    if CreateAuthenticatedRequest(path, verb, a) == CreateAuthenticatedRequest(path, verb, b) {
      assert BearerToken(CreateAuthenticatedRequest(path, verb, a).headers) == Some(a);
    }
  }

  /**
   * `updateTasks`: a PATCH of /tasks whose body is the list of task
   * dictionaries with every UUID sanitized, classified by the task guard.
   */
  method UpdateTasks(token: string, tasks: seq<map<string, Json>>, status: Status)
    returns (request: Request, outcome: Outcome)
    ensures request.path == "tasks" && request.verb == "PATCH"
    ensures BearerToken(request.headers) == Some(token)
    ensures "Content-Type" in request.headers && request.headers["Content-Type"] == "application/json"
    ensures request.body.Some? && request.body.value.Array? && |request.body.value.items| == |tasks|
    ensures forall i :: 0 <= i < |tasks| ==>
              request.body.value.items[i].Object? && request.body.value.items[i].fields.Keys == tasks[i].Keys
    ensures NoUuid(request.body.value)
    ensures outcome == ClassifyTaskResponse(status)
  {
    var sanitized := SanitizedBodies(tasks);
    var items := seq(|sanitized|, i requires 0 <= i < |sanitized| => Object(sanitized[i]));
    request := CreateAuthenticatedRequest("tasks", "PATCH", token);
    request := request.(body := Some(Array(items)));
    outcome := ClassifyTaskResponse(status);
  }
}
