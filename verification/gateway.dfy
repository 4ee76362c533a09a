/**
 * The payment calls: which endpoint each call goes to, the payload it sends
 * and how the gateway's reply is reshaped into the client's result.
 */
module Gateway {
  import opened Wrappers
  import opened Json
  import opened ClientConfig

  /** The two calls the client makes. */
  datatype Operation = NewPayment | Verification

  /** The endpoint name handed to the transport; both the environment and the call choose it. */
  function Endpoint(c: Config, op: Operation): string {
    match op
    case NewPayment => if c.sandbox then "PaymentRequest" else "request"
    case Verification => if c.sandbox then "PaymentVerification" else "verify"
  }

  /** The four endpoint names differ, so the name alone tells environment and call apart. */
  lemma EndpointsDistinct(c1: Config, op1: Operation, c2: Config, op2: Operation)
    ensures Endpoint(c1, op1) == Endpoint(c2, op2) <==> c1.sandbox == c2.sandbox && op1 == op2
  {
  }

  /** The payload key that carries the merchant id in each environment. */
  function MerchantKey(c: Config): string {
    if c.sandbox then "MerchantID" else "merchant_id"
  }

  /**
   * `makePayload($payload)`: the caller's payload with the merchant id merged
   * in last, so it overrides a caller value under the same key.
   */
  function MakePayload(c: Config, payload: Object): (sent: Object)
    ensures Get(sent, MerchantKey(c)) == Some(Str(c.merchantId))
    ensures forall k :: k != MerchantKey(c) ==> Get(sent, k) == Get(payload, k)
    ensures Keys(sent) ==
              if MerchantKey(c) in Keys(payload) then Keys(payload)
              else Keys(payload) + [MerchantKey(c)]
    ensures DistinctKeys(payload) ==> DistinctKeys(sent)
  {
    Put(payload, MerchantKey(c), Str(c.merchantId))
  }

  /** Injecting the merchant id into an already prepared payload changes nothing. */
  lemma MakePayloadIdempotent(c: Config, payload: Object)
    ensures MakePayload(c, MakePayload(c, payload)) == MakePayload(c, payload)
  {
    PutIdempotent(payload, MerchantKey(c), Str(c.merchantId));
  }

  /** The two reply layouts: flat, capitalised fields in the sandbox; fields under `data` in production. */
  datatype Shape = Flat | Nested

  function ShapeOf(c: Config): Shape {
    if c.sandbox then Flat else Nested
  }

  /** `$response['data'][$k]`: only an object under `data` has named fields. */
  function DataField(response: Object, k: string): (r: Option<Json>)
    ensures r.Some? <==>
              Get(response, "data").Some? && Get(response, "data").value.Obj?
              && k in Keys(Get(response, "data").value.fields)
    ensures r.Some? ==> Get(Get(response, "data").value.fields, k) == r
  {
    match Get(response, "data")
    case Some(Obj(fields)) => Get(fields, k)
    case _ => None
  }

  /** PHP's `??`: the default when the value is missing or null. */
  function Coalesce(v: Option<Json>, default: Json): (r: Json)
    ensures v.Some? && v.value != Null ==> r == v.value
    ensures r == default || (v == Some(r) && r != Null)
    ensures default != Null ==> r != Null
  {
    if v.Some? && v.value != Null then v.value else default
  }

  /** One result field: `flatKey` at the top level or `nestedKey` under `data`, by layout. */
  function ReadField(shape: Shape, response: Object, flatKey: string, nestedKey: string, default: Json): Json {
    Coalesce(if shape == Flat then Get(response, flatKey) else DataField(response, nestedKey), default)
  }

  /** The normalised result of `request`. */
  datatype RequestResult = RequestResult(code: Json, authority: Json)

  /** The normalised result of `verify`. */
  datatype VerifyResult = VerifyResult(code: Json, refId: Json)

  /** The status code is read the same way by both calls. */
  function ReadCode(c: Config, response: Object): (code: Json)
    ensures var f := if c.sandbox then Get(response, "Status") else DataField(response, "code");
            && (f.Some? && f.value != Null ==> code == f.value)
            && (code != Null ==> f == Some(code))
  {
    ReadField(ShapeOf(c), response, "Status", "code", Null)
  }

  function ReadRequestResponse(c: Config, response: Object): (r: RequestResult)
    ensures var f := if c.sandbox then Get(response, "Status") else DataField(response, "code");
            && (f.Some? && f.value != Null ==> r.code == f.value)
            && (r.code != Null ==> f == Some(r.code))
    ensures var f := if c.sandbox then Get(response, "Authority") else DataField(response, "authority");
            && (f.Some? && f.value != Null ==> r.authority == f.value)
            && (r.authority != Str("") ==> f == Some(r.authority))
            && r.authority != Null
  {
    RequestResult(ReadCode(c, response), ReadField(ShapeOf(c), response, "Authority", "authority", Str("")))
  }

  function ReadVerifyResponse(c: Config, response: Object): (r: VerifyResult)
    ensures var f := if c.sandbox then Get(response, "Status") else DataField(response, "code");
            && (f.Some? && f.value != Null ==> r.code == f.value)
            && (r.code != Null ==> f == Some(r.code))
    ensures var f := if c.sandbox then Get(response, "RefID") else DataField(response, "ref_id");
            && (f.Some? && f.value != Null ==> r.refId == f.value)
            && (r.refId != Str("") ==> f == Some(r.refId))
            && r.refId != Null
  {
    VerifyResult(ReadCode(c, response), ReadField(ShapeOf(c), response, "RefID", "ref_id", Str("")))
  }

  /** The reply the gateway sends for a given result, in each layout. */
  function EncodeRequestResult(shape: Shape, r: RequestResult): Object {
    match shape
    case Flat => [("Status", r.code), ("Authority", r.authority)]
    case Nested => [("data", Obj([("code", r.code), ("authority", r.authority)]))]
  }

  function EncodeVerifyResult(shape: Shape, r: VerifyResult): Object {
    match shape
    case Flat => [("Status", r.code), ("RefID", r.refId)]
    case Nested => [("data", Obj([("code", r.code), ("ref_id", r.refId)]))]
  }

  lemma GetPair(k1: string, v1: Json, k2: string, v2: Json)
    requires k1 != k2
    ensures Get([(k1, v1), (k2, v2)], k1) == Some(v1)
    ensures Get([(k1, v1), (k2, v2)], k2) == Some(v2)
  {
    assert [(k1, v1), (k2, v2)][1..] == [(k2, v2)];
  }

  /** Reading a reply in the configured layout gives back every result whose authority is not null. */
  lemma RequestResultRoundTrip(c: Config, r: RequestResult)
    requires r.authority != Null
    ensures ReadRequestResponse(c, EncodeRequestResult(ShapeOf(c), r)) == r
  {
    if c.sandbox {
      GetPair("Status", r.code, "Authority", r.authority);
    } else {
      GetPair("code", r.code, "authority", r.authority);
    }
  }

  lemma VerifyResultRoundTrip(c: Config, r: VerifyResult)
    requires r.refId != Null
    ensures ReadVerifyResponse(c, EncodeVerifyResult(ShapeOf(c), r)) == r
  {
    if c.sandbox {
      GetPair("Status", r.code, "RefID", r.refId);
    } else {
      GetPair("code", r.code, "ref_id", r.refId);
    }
  }

  /** In the sandbox the `data` field is never looked at: replies that differ only there read alike. */
  lemma SandboxIgnoresData(c: Config, reply1: Object, reply2: Object)
    requires c.sandbox
    requires forall k :: k != "data" ==> Get(reply1, k) == Get(reply2, k)
    ensures ReadRequestResponse(c, reply1) == ReadRequestResponse(c, reply2)
    ensures ReadVerifyResponse(c, reply1) == ReadVerifyResponse(c, reply2)
  {
  }

  /** In production only the `data` field is looked at: replies that agree there read alike. */
  lemma ProductionIgnoresTopLevel(c: Config, reply1: Object, reply2: Object)
    requires !c.sandbox
    requires Get(reply1, "data") == Get(reply2, "data")
    ensures ReadRequestResponse(c, reply1) == ReadRequestResponse(c, reply2)
    ensures ReadVerifyResponse(c, reply1) == ReadVerifyResponse(c, reply2)
  {
  }

  /** In production a reply without an object under `data` reads as all defaults. */
  lemma ProductionWithoutDataDefaults(c: Config, response: Object)
    requires !c.sandbox
    requires Get(response, "data").None? || !Get(response, "data").value.Obj?
    ensures ReadRequestResponse(c, response) == RequestResult(Null, Str(""))
    ensures ReadVerifyResponse(c, response) == VerifyResult(Null, Str(""))
  {
  }

  /** A failed HTTP call, thrown by the transport and not caught by the client. */
  datatype TransportError = RequestException(message: string)

  /** `IClient::sendRequest($endpoint, $payload)`: the decoded reply or the exception it throws. */
  type Transport = (string, Object) -> Result<Object, TransportError>

  /** The one transport call an operation makes. */
  function Exchange(c: Config, op: Operation, payload: Object, send: Transport): Result<Object, TransportError> {
    send(Endpoint(c, op), MakePayload(c, payload))
  }

  /** `request($payload)`. */
  function Request(c: Config, payload: Object, send: Transport): (r: Result<RequestResult, TransportError>)
    ensures var reply := send(if c.sandbox then "PaymentRequest" else "request", MakePayload(c, payload));
            && (r.Failure? <==> reply.Failure?)
            && (r.Failure? ==> r.error == reply.error)
            && (r.Success? ==> r.value == ReadRequestResponse(c, reply.value))
  {
    match Exchange(c, NewPayment, payload, send)
    case Failure(e) => Failure(e)
    case Success(response) => Success(ReadRequestResponse(c, response))
  }

  /** `verify($payload)`. */
  function Verify(c: Config, payload: Object, send: Transport): (r: Result<VerifyResult, TransportError>)
    ensures var reply := send(if c.sandbox then "PaymentVerification" else "verify", MakePayload(c, payload));
            && (r.Failure? <==> reply.Failure?)
            && (r.Failure? ==> r.error == reply.error)
            && (r.Success? ==> r.value == ReadVerifyResponse(c, reply.value))
  {
    match Exchange(c, Verification, payload, send)
    case Failure(e) => Failure(e)
    case Success(response) => Success(ReadVerifyResponse(c, response))
  }

  /**
   * Two transports that answer the one call alike give the same results:
   * nothing but the prepared payload at the mode's endpoint is ever sent.
   */
  lemma OnlyTheExchangeMatters(c: Config, payload: Object, send1: Transport, send2: Transport)
    requires send1(Endpoint(c, NewPayment), MakePayload(c, payload)) ==
             send2(Endpoint(c, NewPayment), MakePayload(c, payload))
    requires send1(Endpoint(c, Verification), MakePayload(c, payload)) ==
             send2(Endpoint(c, Verification), MakePayload(c, payload))
    ensures Request(c, payload, send1) == Request(c, payload, send2)
    ensures Verify(c, payload, send1) == Verify(c, payload, send2)
  {
  }

  /** A sandbox reply `{Status: 100, Authority: "XYZ"}` reads as code 100, authority "XYZ". */
  lemma SandboxRequestExample(c: Config)
    requires c.sandbox
    ensures Request(c, [], (e, p) => Success([("Status", Int(100)), ("Authority", Str("XYZ"))]))
            == Success(RequestResult(Int(100), Str("XYZ")))
  {
  }

  /** A production reply `{data: {code: 100, authority: "XYZ"}}` reads the same. */
  lemma ProductionRequestExample(c: Config)
    requires !c.sandbox
    ensures Request(c, [], (e, p) => Success([("data", Obj([("code", Int(100)), ("authority", Str("XYZ"))]))]))
            == Success(RequestResult(Int(100), Str("XYZ")))
  {
  }

  /** A sandbox verification reply without `RefID` keeps its status and reads an empty reference. */
  lemma VerifyMissingRefIdExample(c: Config)
    requires c.sandbox
    ensures Verify(c, [], (e, p) => Success([("Status", Int(101))]))
            == Success(VerifyResult(Int(101), Str("")))
  {
  }
}
