/** `ChargifyV2\Call`: reading the record of one Chargify Direct call. */
module CallV2 {
  import opened Wrappers
  import opened Php
  import opened Http
  import opened ServiceV2
  import opened EntityV2

  /** The request `readByChargifyId($callId)` sends: GET calls/<callId>, no query and no body. */
  function ReadRequest(callId: string): Outgoing {
    Send("GET", "calls/" + callId, [], None)
  }

  /** `request('calls/' . $callId, 'GET')` is prepared as the GET of that path. */
  lemma ReadIssuesGet(callId: string)
    ensures Prepare("calls/" + callId, "GET", None, [], "") == Success(ReadRequest(callId))
  {
    var path := "calls/" + callId;
    assert path[0] == 'c';
    assert TrimLeft(path, {'/'}) == path;
    assert RequestPath(path, "") == path;
    assert Upper("GET") == "GET";
  }

  /**
   * `_data` after `readByChargifyId`: the `call` entry when the entity is free of
   * errors and the status is 200, otherwise the whole response array.
   */
  function CallData(received: Received, errors: seq<Value>, body: Value): Value {
    if errors == [] && received.Got? && received.response.status == 200 then Lookup(body, Name("call"))
    else body
  }

  class Call {
    const entity: AbstractEntity

    constructor (service: ChargifyV2)
      ensures fresh(entity) && entity.service == service
      ensures entity.params == [] && entity.errors == [] && entity.data == Arr([])
    {
      entity := new AbstractEntity(service);
    }

    /** `readByChargifyId($callId)`. */
    method ReadByChargifyId(callId: string, send: Outgoing -> Transport) returns (o: Outcome<Exception>)
      modifies entity`errors, entity`data, entity.service`lastResponse
      ensures var received := Receive(send(ReadRequest(callId)));
              var c := Classify(received, old(entity.errors));
              && entity.service.lastResponse == Some(received)
              && entity.errors == c.errors
              && (c.result.Failure? ==> o == Fail(c.result.error) && entity.data == old(entity.data))
              && (c.result.Success? ==> o == Pass && entity.data == CallData(received, c.errors, c.result.value))
    {
      ReadIssuesGet(callId);
      var response := entity.service.Request("calls/" + callId, "GET", None, [], send);
      var received := response.value;
      ErrorFreeMeansAnswered(received, entity.errors);
      var decoded := entity.GetResponseArray(received);
      if decoded.Failure? {
        return Fail(decoded.error);
      }
      if !entity.IsError() && received.response.status == 200 {
        entity.data := Lookup(decoded.value, Name("call"));
      } else {
        entity.data := decoded.value;
      }
      o := Pass;
    }
  }

  /** A 404 leaves the call in error, with the whole response array as its data. */
  lemma NotFoundIsError(resp: Response, errors: seq<Value>)
    requires resp.status == 404
    ensures var c := Classify(Got(resp), errors);
            c.errors != [] && (c.result.Success? ==> CallData(Got(resp), c.errors, c.result.value) == c.result.value)
  {
    FailureLeavesError(Got(resp), errors);
  }

  /** A clean 200 whose body reports no errors yields the record under `call`. */
  lemma CleanOkUnwrapsCall(resp: Response)
    requires resp.status == 200 && !BlankBody(resp) && resp.json.Arr? && ApiErrors(resp.json) == []
    ensures var c := Classify(Got(resp), []);
            c.result == Success(resp.json) && CallData(Got(resp), c.errors, resp.json) == Lookup(resp.json, Name("call"))
  {
  }
}
