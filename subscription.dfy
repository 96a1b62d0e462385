/** `Chargify\Subscription`: the subscription actions of the version 1 API. */
module Subscription {
  import opened Wrappers
  import opened Php
  import opened Http
  import opened ServiceV1
  import opened EntityV1

  const IncludeTrial := "include_trial"
  const CancelAtEndOfPeriod := "cancel_at_end_of_period"

  /** `reactivate` reads the status code of the response even when there was none. */
  const NoStatusOnFalse := Error("Call to a member function getStatusCode() on bool")

  /** `(int)$flag` of a boolean. */
  function IntOfBool(b: bool): (i: int)
    ensures 0 <= i <= 1 && (i == 1 <==> b)
  {
    if b then 1 else 0
  }

  /**
   * The query of `reactivate`: `include_trial` only when `getParam` yields an
   * integer. `getParam` turns 0 into null, so an include_trial of 0 is never sent.
   */
  function ReactivateQuery(includeTrial: Value): (q: seq<(Key, Value)>)
    ensures q != [] <==> includeTrial.Int?
    ensures includeTrial.Int? ==> q == [(Name(IncludeTrial), includeTrial)]
  {
    if includeTrial.Int? then [(Name(IncludeTrial), includeTrial)] else []
  }

  /** The error map and data `reactivate` ends with, or the exception it throws. */
  datatype Reactivated = Reactivated(errors: Value, data: Value)

  /**
   * The end of `reactivate`: the status code is read from the response (which
   * throws when there was none), a status other than 200 pushes the response
   * array onto the errors, and the data is the subscription record unless the
   * entity is in error; reading the record out of a string throws.
   */
  function ReactivateOutcome(f: Fetched): (r: Result<Reactivated, Exception>)
    ensures f.received.NoResponse? ==> r == Failure(NoStatusOnFalse)
    ensures r.Success? && f.received.response.status != 200 ==>
              r.value.data == Arr([]) && Container(f.classified.errors).Some? &&
              r.value.errors == Arr(Push(Container(f.classified.errors).value, f.classified.decoded))
    ensures f.received.Got? && f.received.response.status != 200 && Container(f.classified.errors).None? ==>
              r == Failure(ScalarWrite)
    ensures r.Success? && IsEmpty(r.value.errors) ==>
              f.received.response.status == 200 && !f.classified.decoded.Str? &&
              r.value.data == Lookup(f.classified.decoded, Name("subscription"))
    ensures (f.received.Got? && f.received.response.status == 200 && IsEmpty(f.classified.errors)
             && f.classified.decoded.Str?) ==> r == Failure(StringOffsetType)
  {
    if f.received.NoResponse? then Failure(NoStatusOnFalse)
    else
      var pushed := if f.received.response.status != 200
                    then WriteOffset(f.classified.errors, None, f.classified.decoded)
                    else Success(f.classified.errors);
      match pushed
      case Failure(e) => Failure(e)
      case Success(errors) =>
        if !IsEmpty(errors) then Success(Reactivated(errors, Arr([])))
        else
          match ReadKey(f.classified.decoded, Name("subscription"))
          case Failure(e) => Failure(e)
          case Success(record) => Success(Reactivated(errors, record))
  }

  /** A stored include_trial of 0 is not sent; any other integer is. */
  lemma ZeroTrialNeverSent(e: AbstractEntity, n: int)
    requires Get(e.params, Name(IncludeTrial)) == Some(Int(n))
    ensures ReactivateQuery(e.GetParam(IncludeTrial)) == if n == 0 then [] else [(Name(IncludeTrial), Int(n))]
  {
  }

  /** A stored include_trial that is not an integer (a string "1", say) is not sent either. */
  lemma NonIntegerTrialNeverSent(e: AbstractEntity)
    requires Get(e.params, Name(IncludeTrial)) == Some(Str("1"))
    ensures ReactivateQuery(e.GetParam(IncludeTrial)) == []
  {
  }

  class Subscription {
    const entity: AbstractEntity

    constructor (service: Chargify)
      ensures fresh(entity) && entity.service == service
      ensures entity.params == [] && entity.errors == Arr([]) && entity.data == Arr([])
    {
      entity := new AbstractEntity(service);
    }

    /** `setCancelAtEndOfPeriod($bool)`: stores 1 or 0. */
    method SetCancelAtEndOfPeriod(flag: bool)
      modifies entity`params
      ensures entity.params == Put(old(entity.params), Name(CancelAtEndOfPeriod), Int(IntOfBool(flag)))
    {
      entity.SetParam(CancelAtEndOfPeriod, Int(IntOfBool(flag)));
    }

    /** `setIncludeTrial($includeTrial)`. */
    method SetIncludeTrial(includeTrial: Value)
      modifies entity`params
      ensures entity.params == Put(old(entity.params), Name(IncludeTrial), includeTrial)
    {
      entity.SetParam(IncludeTrial, includeTrial);
    }

    /** `read($subscriptionId)`: GET subscriptions/<id>. */
    method Read(subscriptionId: int, send: Outgoing -> Transport) returns (o: Outcome<Exception>)
      modifies entity`errors, entity`data, entity.service`lastResponse
      ensures entity.Performed("subscriptions/" + IntToDecimal(subscriptionId), "GET", None, [],
                               Record("subscription"), send, o)
    {
      o := entity.Perform("subscriptions/" + IntToDecimal(subscriptionId), "GET", None, [],
                          Record("subscription"), send);
    }

    /** `create()`: POST subscriptions with the parameters under "subscription". */
    method Create(send: Outgoing -> Transport) returns (o: Outcome<Exception>)
      modifies entity`errors, entity`data, entity.service`lastResponse
      ensures entity.Performed("subscriptions", "POST", Some(Wrapped("subscription", entity.params)), [],
                               Record("subscription"), send, o)
    {
      o := entity.Perform("subscriptions", "POST", Some(Wrapped("subscription", entity.params)), [],
                          Record("subscription"), send);
    }

    /** `cancelImmediately($id)`: DELETE, with the parameters as the body only when there are any. */
    method CancelImmediately(id: int, send: Outgoing -> Transport) returns (o: Outcome<Exception>)
      modifies entity`errors, entity`data, entity.service`lastResponse
      ensures entity.Performed("subscriptions/" + IntToDecimal(id), "DELETE",
                               if entity.params == [] then None else Some(Wrapped("subscription", entity.params)), [],
                               Record("subscription"), send, o)
    {
      var rawData := if entity.params == [] then None else Some(Wrapped("subscription", entity.params));
      o := entity.Perform("subscriptions/" + IntToDecimal(id), "DELETE", rawData, [], Record("subscription"), send);
    }

    /** `cancelDelayed($id)`: sets cancel_at_end_of_period to 1, then PUTs the parameters. */
    method CancelDelayed(id: int, send: Outgoing -> Transport) returns (o: Outcome<Exception>)
      modifies entity`params, entity`errors, entity`data, entity.service`lastResponse
      ensures entity.params == Put(old(entity.params), Name(CancelAtEndOfPeriod), Int(1))
      ensures entity.Performed("subscriptions/" + IntToDecimal(id), "PUT", Some(Wrapped("subscription", entity.params)), [],
                               Record("subscription"), send, o)
    {
      SetCancelAtEndOfPeriod(true);
      o := entity.Perform("subscriptions/" + IntToDecimal(id), "PUT", Some(Wrapped("subscription", entity.params)), [],
                          Record("subscription"), send);
    }

    /**
     * `reactivate($id)`: PUT subscriptions/<id>/reactivate with an empty body and
     * include_trial in the query when it is an integer.
     */
    method Reactivate(id: int, send: Outgoing -> Transport) returns (o: Outcome<Exception>)
      modifies entity`errors, entity`data, entity.service`lastResponse
      ensures var prepared := Prepare("subscriptions/" + IntToDecimal(id) + "/reactivate", "PUT", Some(Text("")),
                                      ReactivateQuery(old(entity.GetParam(IncludeTrial))), "." + Format);
              var f := Fetch(prepared, send, old(entity.errors));
              && entity.service.lastResponse == LastResponseAfter(prepared, send, old(entity.service.lastResponse))
              && (f.Failure? ==> o == Fail(f.error) && entity.errors == old(entity.errors) && entity.data == old(entity.data))
              && (f.Success? ==>
                    var r := ReactivateOutcome(f.value);
                    && (r.Failure? ==> o == Fail(r.error) && entity.errors == f.value.classified.errors
                                       && entity.data == old(entity.data))
                    && (r.Success? ==> o == Pass && entity.errors == r.value.errors && entity.data == r.value.data))
    {
      var query := ReactivateQuery(entity.GetParam(IncludeTrial));
      var response := entity.service.Request("subscriptions/" + IntToDecimal(id) + "/reactivate", "PUT",
                                             Some(Text("")), query, send);
      // A raw body is given, so preparing the request cannot fail.
      var decoded := entity.GetResponseArray(response.value);
      if decoded.Failure? {
        return Fail(decoded.error);
      }
      if response.value.NoResponse? {
        return Fail(NoStatusOnFalse);
      }
      if response.value.response.status != 200 {
        var pushed := WriteOffset(entity.errors, None, decoded.value);
        if pushed.Failure? {
          return Fail(pushed.error);
        }
        entity.errors := pushed.value;
      }
      if !entity.IsError() {
        var record := ReadKey(decoded.value, Name("subscription"));
        if record.Failure? {
          return Fail(record.error);
        }
        entity.data := record.value;
      } else {
        entity.data := Arr([]);
      }
      o := Pass;
    }

    /** `resetBalance($subscriptionId)`: GET subscriptions/<id>/reset_balance. */
    method ResetBalance(subscriptionId: int, send: Outgoing -> Transport) returns (o: Outcome<Exception>)
      modifies entity`errors, entity`data, entity.service`lastResponse
      ensures entity.Performed("subscriptions/" + IntToDecimal(subscriptionId) + "/reset_balance", "GET", None, [],
                               Record("subscription"), send, o)
    {
      o := entity.Perform("subscriptions/" + IntToDecimal(subscriptionId) + "/reset_balance", "GET", None, [],
                          Record("subscription"), send);
    }

    /** `update($id)`: PUT subscriptions/<id> with the parameters under "subscription". */
    method Update(id: int, send: Outgoing -> Transport) returns (o: Outcome<Exception>)
      modifies entity`errors, entity`data, entity.service`lastResponse
      ensures entity.Performed("subscriptions/" + IntToDecimal(id), "PUT", Some(Wrapped("subscription", entity.params)), [],
                               Record("subscription"), send, o)
    {
      o := entity.Perform("subscriptions/" + IntToDecimal(id), "PUT", Some(Wrapped("subscription", entity.params)), [],
                          Record("subscription"), send);
    }

    /** `migrate($subscriptionId)`: POST subscriptions/<id>/migrations with the parameters under "migration". */
    method Migrate(subscriptionId: int, send: Outgoing -> Transport) returns (o: Outcome<Exception>)
      modifies entity`errors, entity`data, entity.service`lastResponse
      ensures entity.Performed("subscriptions/" + IntToDecimal(subscriptionId) + "/migrations", "POST",
                               Some(Wrapped("migration", entity.params)), [], Record("subscription"), send, o)
    {
      o := entity.Perform("subscriptions/" + IntToDecimal(subscriptionId) + "/migrations", "POST",
                          Some(Wrapped("migration", entity.params)), [], Record("subscription"), send);
    }

    /** `listSubscriptions()`: GET subscriptions with the parameters as the query. */
    method ListSubscriptions(send: Outgoing -> Transport) returns (o: Outcome<Exception>)
      modifies entity`errors, entity`data, entity.service`lastResponse
      ensures entity.Performed("subscriptions", "GET", None, entity.params, Listed("subscription"), send, o)
    {
      o := entity.Perform("subscriptions", "GET", None, entity.params, Listed("subscription"), send);
    }

    /** `listByCustomer($customerId)`: GET customers/<id>/subscriptions. */
    method ListByCustomer(customerId: int, send: Outgoing -> Transport) returns (o: Outcome<Exception>)
      modifies entity`errors, entity`data, entity.service`lastResponse
      ensures entity.Performed("customers/" + IntToDecimal(customerId) + "/subscriptions", "GET", None, [],
                               Listed("subscription"), send, o)
    {
      o := entity.Perform("customers/" + IntToDecimal(customerId) + "/subscriptions", "GET", None, [],
                          Listed("subscription"), send);
    }
  }

  /**
   * A 200 whose body is the JSON string "ok" passes `getResponseArray`, which
   * returns the string, and then reading its "subscription" offset throws.
   */
  lemma StringBodyThrows(errors: Value)
    requires IsEmpty(errors)
    ensures var resp := Response(200, [], "\"ok\"", Str("ok"));
            var r := Classify(Got(resp), errors);
            r.Success? && r.value.decoded == Str("ok") &&
            NewData(Record("subscription"), Fetched(Got(resp), r.value)) == Failure(StringOffsetType)
  {
  }

  /** The subscription record of a clean answer becomes the data; a bad status leaves it empty. */
  lemma RecordRule(resp: Response, errors: Value)
    requires CanNote(errors)
    ensures var r := Classify(Got(resp), errors);
            r.Success? &&
            (IsErrorStatus(resp.status) ==> NewData(Record("subscription"), Fetched(Got(resp), r.value)) == Success(Arr([]))) &&
            (IsEmpty(r.value.errors) && !r.value.decoded.Str? ==>
               NewData(Record("subscription"), Fetched(Got(resp), r.value))
               == Success(Lookup(r.value.decoded, Name("subscription")))) &&
            (IsEmpty(r.value.errors) && r.value.decoded.Str? ==>
               NewData(Record("subscription"), Fetched(Got(resp), r.value)) == Failure(StringOffsetType))
  {
  }
}
