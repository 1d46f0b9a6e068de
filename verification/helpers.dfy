/**
 * The response envelopes of the service and the shape of what a client
 * receives. `ErrorResponse` and `SuccessResponse` build the
 * `{status, message}` / `{status, detail}` bodies the user handlers use;
 * `GetObjectOr404` is the lookup-or-fail helper. `Reply` is the status code
 * and JSON body the web framework sends back, whatever a handler returned or
 * raised.
 */
module Helpers {
  import opened Wrappers

  const HTTP_200_OK := 200
  const HTTP_201_CREATED := 201
  const HTTP_204_NO_CONTENT := 204
  const HTTP_400_BAD_REQUEST := 400
  const HTTP_404_NOT_FOUND := 404
  const HTTP_422_UNPROCESSABLE_ENTITY := 422
  const HTTP_500_INTERNAL_SERVER_ERROR := 500

  /** The JSON values that appear in request and response bodies. */
  datatype Json =
    | JNull
    | JInt(n: int)
    | JStr(s: string)
    | JArr(elems: seq<Json>)
    | JObj(fields: seq<(string, Json)>)

  /** The value bound to `key` among `fields`, taking the first binding. */
  function Lookup(fields: seq<(string, Json)>, key: string): (r: Option<Json>)
    ensures r.None? <==> forall i :: 0 <= i < |fields| ==> fields[i].0 != key
    ensures r.Some? ==> exists i :: 0 <= i < |fields| && fields[i] == (key, r.value)
  {
    if |fields| == 0 then None
    else if fields[0].0 == key then Some(fields[0].1)
    else Lookup(fields[1..], key)
  }

  /** The member `key` of a JSON object; None when `j` is no object or lacks it. */
  function Get(j: Json, key: string): Option<Json> {
    if j.JObj? then Lookup(j.fields, key) else None
  }

  /** The keys of a JSON object, in order. */
  function Keys(j: Json): seq<string> {
    if j.JObj? then seq(|j.fields|, i requires 0 <= i < |j.fields| => j.fields[i].0) else []
  }

  /** An exception carrying a status code and a JSON detail. */
  datatype HttpException = HttpException(statusCode: int, detail: Json)

  /** A response with a status code and a JSON content. */
  datatype JsonResponse = JsonResponse(statusCode: int, content: Json)

  /** One failed constraint of a request body. */
  datatype ValidationError = ValidationError(field: string, message: string)

  /** The error envelope: the given status and the detail `{"status": "error", "message": message}`. */
  function ErrorResponse(statusCode: int, message: Json): (e: HttpException)
    ensures e.statusCode == statusCode
    ensures Keys(e.detail) == ["status", "message"]
    ensures Get(e.detail, "status") == Some(JStr("error"))
    ensures Get(e.detail, "message") == Some(message)
  {
    var fields := [("status", JStr("error")), ("message", message)];
    assert Lookup(fields[1..], "message") == Some(message);
    HttpException(statusCode, JObj(fields))
  }

  /** The success envelope: content `{"status": "success", "detail": message}`, status 200 unless given. */
  function SuccessResponse(message: Json, statusCode: int := HTTP_200_OK): (r: JsonResponse)
    ensures r.statusCode == statusCode
    ensures Keys(r.content) == ["status", "detail"]
    ensures Get(r.content, "status") == Some(JStr("success"))
    ensures Get(r.content, "detail") == Some(message)
  {
    var fields := [("status", JStr("success")), ("detail", message)];
    assert Lookup(fields[1..], "detail") == Some(message);
    JsonResponse(statusCode, JObj(fields))
  }

  /**
   * Lookup-or-fail: the object stored under `key`, or a 404 error envelope
   * whose message is "<typeName> not found".
   */
  function GetObjectOr404<K, T>(objects: map<K, T>, typeName: string, key: K): (r: Result<T, HttpException>)
    ensures r.Success? <==> key in objects
    ensures r.Success? ==> r.value == objects[key]
    ensures r.Failure? ==>
              && r.error.statusCode == HTTP_404_NOT_FOUND
              && Get(r.error.detail, "status") == Some(JStr("error"))
              && Get(r.error.detail, "message") == Some(JStr(typeName + " not found"))
  {
    if key in objects then Success(objects[key])
    else Failure(ErrorResponse(HTTP_404_NOT_FOUND, JStr(typeName + " not found")))
  }

  /** What the client receives: a status code and a JSON body. */
  datatype Reply = Reply(status: int, body: Json)

  /** A raised exception reaches the client as its status and the body `{"detail": detail}`. */
  function Raise(e: HttpException): (r: Reply)
    ensures r.status == e.statusCode
    ensures Keys(r.body) == ["detail"] && Get(r.body, "detail") == Some(e.detail)
  {
    Reply(e.statusCode, JObj([("detail", e.detail)]))
  }

  /** A returned response reaches the client as it is. */
  function Send(r: JsonResponse): Reply {
    Reply(r.statusCode, r.content)
  }

  /** A request body that failed validation is answered with 422 before the handler runs. */
  function Unprocessable(e: ValidationError): (r: Reply)
    ensures r.status == HTTP_422_UNPROCESSABLE_ENTITY
  {
    Reply(HTTP_422_UNPROCESSABLE_ENTITY,
          JObj([("detail", JArr([JObj([("loc", JStr(e.field)), ("msg", JStr(e.message))])]))]))
  }

  /** An exception the handler does not catch is answered with 500. */
  const InternalServerError: Reply := Reply(HTTP_500_INTERNAL_SERVER_ERROR, JStr("Internal Server Error"))

  /** A response with status 204 and no body. */
  const NoContent: Reply := Reply(HTTP_204_NO_CONTENT, JNull)
}
