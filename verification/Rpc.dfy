/** JSON-RPC messages as the session actors see them, the conversion between the JSON and
    the protobuf form of a request id, and the error-response builders. */
module Rpc {
  import opened Wrappers

  /** The `oneof id` of a protobuf request or response. */
  datatype Id = IntId(i: int) | StringId(s: string) | NullId | Unset

  datatype Request = Request(id: Id, methodName: string, paramsJson: string)

  /** `InitializeResult` stands for the marshalled result object of an initialize call. */
  datatype Body =
    | ResultJson(json: string)
    | InitializeResult(version: string, sessionId: string)
    | Error(code: int, message: string)

  datatype Response = Response(id: Id, body: Body)

  /** An `error` value as `errors.As` sees it: a JSON-RPC error somewhere in the chain, or none. */
  datatype Failure = JsonRpcError(code: int, message: string) | OtherError

  const NOT_INITIALIZED := -32002
  const METHOD_NOT_FOUND := -32601
  const INVALID_PARAMS := -32602
  const INTERNAL := -32603

  /** The id switch of every response builder: integer and string ids are copied, all others stay unset. */
  function CopyId(id: Id): Id {
    match id
    case IntId(_) => id
    case StringId(_) => id
    case _ => Unset
  }

  /** Go's `int32(x)`: wraps around. */
  function Int32(x: int): int {
    (x + 0x8000_0000) % 0x1_0000_0000 - 0x8000_0000
  }

  function CreateErrorResponse(req: Request, code: int, message: string): Response {
    Response(CopyId(req.id), Error(code, message))
  }

  /** The response for an executor's error; an error that is no JSON-RPC error becomes an internal one. */
  function CreateFailureResponse(req: Request, f: Failure): Response {
    match f
    case JsonRpcError(code, message) => CreateErrorResponse(req, Int32(code), message)
    case OtherError => CreateErrorResponse(req, INTERNAL, "Internal error: problem handling message")
  }

  function MethodNotFound(methodName: string): Failure {
    JsonRpcError(METHOD_NOT_FOUND, "Method not found: " + methodName)
  }

  /** `PrepareResponse` completed with a result. */
  function PrepareResponse(req: Request, json: string): Response {
    Response(CopyId(req.id), ResultJson(json))
  }

  // ---- JSON side ----

  /** The `id` member after JSON decoding; missing and null are the same nil. */
  datatype JsonId = Nil | Number(x: real) | Text(s: string) | Other

  datatype JsonMessage = JsonMessage(id: JsonId, body: Body)

  const MIN_INT64 := -0x8000_0000_0000_0000
  const MAX_INT64 := 0x7fff_ffff_ffff_ffff

  /** Truncation toward zero. */
  function Truncate(x: real): int {
    if x >= 0.0 then x.Floor else -((-x).Floor)
  }

  /** Go's `int64(f)`; out of range the language leaves the result open, here `wild`. */
  function Int64(x: real, wild: int): int {
    if MIN_INT64 <= Truncate(x) <= MAX_INT64 then Truncate(x) else wild
  }

  function RequestIdFromJson(id: JsonId, wild: int): Id {
    match id
    case Number(x) => IntId(Int64(x, wild))
    case Text(s) => StringId(s)
    case _ => NullId
  }

  function ResponseIdToJson(id: Id): JsonId {
    match id
    case IntId(i) => Number(i as real)
    case StringId(s) => Text(s)
    case _ => Nil
  }

  /** An empty result text stands for the empty object. */
  function ToJson(r: Response): JsonMessage {
    JsonMessage(ResponseIdToJson(r.id), if r.body == ResultJson("") then ResultJson("{}") else r.body)
  }

  /** The ids that JSON-RPC 2.0 allows without reservation and that fit the wire format. */
  predicate Representable(id: JsonId) {
    match id
    case Number(x) => x == x.Floor as real && MIN_INT64 <= x.Floor <= MAX_INT64
    case Other => false
    case _ => true
  }

  /** A number that is no integer loses its fraction, toward zero; one in range is never `wild`. */
  lemma NumericIds(x: real, wild: int)
    ensures var k := Truncate(x);
            && (x >= 0.0 ==> k as real <= x < k as real + 1.0)
            && (x <= 0.0 ==> k as real - 1.0 < x <= k as real)
    ensures MIN_INT64 as real - 1.0 < x < MAX_INT64 as real + 1.0 ==>
            RequestIdFromJson(Number(x), wild) == IntId(Truncate(x))
  {
    assert ((-x).Floor) as real <= -x < ((-x).Floor) as real + 1.0;
  }

  /** Sections 4 and 5 of JSON-RPC 2.0: the response id must equal the request id. Through the
      adapter and any of the builders this is so for representable ids, and for no others. */
  lemma {:induction false} IdPreservedExactly(id: JsonId, wild: int)
    requires MIN_INT64 <= wild <= MAX_INT64
    ensures ResponseIdToJson(CopyId(RequestIdFromJson(id, wild))) == id <==> Representable(id)
    ensures id.Other? ==> ResponseIdToJson(CopyId(RequestIdFromJson(id, wild))) == Nil
  {
    if id.Number? {
      var x := id.x;
      var k := Int64(x, wild);
      if k as real == x {
        assert x.Floor == k;
      }
      if x == x.Floor as real && x < 0.0 {
        assert (-x).Floor == -(x.Floor);
      }
    }
  }
}
