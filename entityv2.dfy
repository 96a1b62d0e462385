/**
 * The base of the version 2 entities (`ChargifyV2\AbstractEntity`): request
 * parameters, the error list, the data behind ArrayAccess, and the rule that turns
 * a response into an array while collecting errors.
 */
module EntityV2 {
  import opened Wrappers
  import opened Php
  import opened Http
  import opened ServiceV2

  /** An error the SDK adds itself, as opposed to one reported by the API. */
  function ClientError(kind: string, message: string): Value {
    Arr([(Name("source"), Str("client")), (Name("attribute"), Null),
         (Name("kind"), Str(kind)), (Name("message"), Str(message))])
  }

  const NoResponseError := ClientError("networking", "no response")

  function StatusError(code: int): Value {
    ClientError("status_code", "Bad status code: " + IntToDecimal(code))
  }

  /**
   * The errors the API reported under `result.errors`, in order. A value there
   * that is PHP-empty, or not an array (which `foreach` skips), adds none.
   */
  function ApiErrors(json: Value): (es: seq<Value>)
    ensures var reported := Lookup(Lookup(json, Name("result")), Name("errors"));
            (reported.Arr? ==> es == Values(reported.entries)) && (!reported.Arr? ==> es == [])
  {
    var reported := Lookup(Lookup(json, Name("result")), Name("errors"));
    if !IsEmpty(reported) && reported.Arr? then Values(reported.entries) else []
  }

  /** The error list after `getResponseArray`, and what it returns or throws. */
  datatype Classified = Classified(errors: seq<Value>, result: Result<Value, Exception>)

  /** The `array` return type of `getResponseArray` refuses a body that does not decode to an array. */
  const NotAnArray := TypeError("getResponseArray(): Return value must be of type array")

  /**
   * `getResponseArray($response)`: errors are only ever appended. No response adds
   * one networking error; a 404, 401 or 500 adds a status error and goes on; a
   * blank body gives []; otherwise the API's errors are appended in order and the
   * decoded body is returned.
   */
  function Classify(received: Received, errors: seq<Value>): (c: Classified)
    ensures errors <= c.errors
    ensures c.result.Failure? <==> received.Got? && !BlankBody(received.response) && !received.response.json.Arr?
    ensures c.result.Failure? ==> c.result.error == NotAnArray
  {
    match received
    case NoResponse => Classified(errors + [NoResponseError], Success(Arr([])))
    case Got(resp) =>
      var flagged := if IsErrorStatus(resp.status) then errors + [StatusError(resp.status)] else errors;
      if BlankBody(resp) then Classified(flagged, Success(Arr([])))
      else
        var result := if resp.json.Arr? then Success(resp.json) else Failure(NotAnArray);
        Classified(flagged + ApiErrors(resp.json), result)
  }

  /** No response: exactly one networking error is appended and the result is []. */
  lemma NoResponseAddsOneError(errors: seq<Value>)
    ensures Classify(NoResponse, errors) == Classified(errors + [NoResponseError], Success(Arr([])))
  {
  }

  /** A bad status code is recorded, and the body is still read and its errors appended after it. */
  lemma BadStatusKeepsProcessing(resp: Response, errors: seq<Value>)
    requires IsErrorStatus(resp.status) && !BlankBody(resp) && resp.json.Arr?
    ensures Classify(Got(resp), errors).errors == errors + [StatusError(resp.status)] + ApiErrors(resp.json)
    ensures Classify(Got(resp), errors).result == Success(resp.json)
  {
  }

  /** A blank body yields [] and no error beyond the status error. */
  lemma BlankBodyAddsNoApiErrors(resp: Response, errors: seq<Value>)
    requires BlankBody(resp)
    ensures var c := Classify(Got(resp), errors);
            c.result == Success(Arr([])) &&
            c.errors == errors + (if IsErrorStatus(resp.status) then [StatusError(resp.status)] else [])
  {
  }

  /** The API's errors follow the existing ones, one by one and in order. */
  lemma ApiErrorsAppendedInOrder(resp: Response, errors: seq<Value>, k: nat)
    requires !IsErrorStatus(resp.status) && !BlankBody(resp)
    requires k < |ApiErrors(resp.json)|
    ensures var c := Classify(Got(resp), errors);
            |c.errors| == |errors| + |ApiErrors(resp.json)| && c.errors[|errors| + k] == ApiErrors(resp.json)[k]
  {
  }

  /** After a missing response or a bad status the entity is in error. */
  lemma FailureLeavesError(received: Received, errors: seq<Value>)
    requires received.NoResponse? || IsErrorStatus(received.response.status)
    ensures Classify(received, errors).errors != []
  {
    if received.Got? {
      assert (errors + [StatusError(received.response.status)])[|errors|] == StatusError(received.response.status);
    }
  }

  /** An entity free of errors after `getResponseArray` was given a response, not false. */
  lemma ErrorFreeMeansAnswered(received: Received, errors: seq<Value>)
    ensures Classify(received, errors).errors == [] ==> received.Got?
  {
    if received.NoResponse? {
      FailureLeavesError(received, errors);
    }
  }

  /**
   * A value returned through a `string|array` return type in PHP's coercive mode:
   * scalars become strings and null is refused.
   */
  function AsStringOrArray(v: Value): (r: Result<Value, Exception>)
    ensures r.Failure? <==> v.Null?
    ensures r.Success? ==> r.value.Str? || r.value.Arr?
    ensures v.Str? || v.Arr? ==> r == Success(v)
  {
    match v
    case Null => Failure(TypeError("getParam(): Return value must be of type array|string, null returned"))
    case Bool(b) => Success(Str(if b then "1" else ""))
    case Int(i) => Success(Str(IntToDecimal(i)))
    case Str(_) => Success(v)
    case Arr(_) => Success(v)
  }

  /** A value returned through a `bool` return type in PHP's coercive mode: null and arrays are refused. */
  function AsBool(v: Value): (r: Result<bool, Exception>)
    ensures r.Failure? <==> v.Null? || v.Arr?
    ensures r.Success? ==> r.value == !IsEmpty(v)
  {
    match v
    case Null => Failure(TypeError("offsetGet(): Return value must be of type bool, null returned"))
    case Arr(_) => Failure(TypeError("offsetGet(): Return value must be of type bool, array returned"))
    case Bool(b) => Success(b)
    case Int(i) => Success(i != 0)
    case Str(s) => Success(!IsEmptyString(s))
  }

  class AbstractEntity {
    const service: ChargifyV2
    var params: seq<(Key, Value)>
    var errors: seq<Value>
    var data: Value

    constructor (service: ChargifyV2)
      ensures this.service == service
      ensures params == [] && errors == [] && data == Arr([])
    {
      this.service := service;
      params := [];
      errors := [];
      data := Arr([]);
    }

    /** `setParam($param, $value)`: sets that one parameter. */
    method SetParam(name: string, value: Value)
      modifies this`params
      ensures params == Put(old(params), Name(name), value)
    {
      params := Put(params, Name(name), value);
    }

    /** `$this->_params[$paramName]`, null when it is missing. */
    function Stored(name: string): Value
      reads this
    {
      Lookup(Arr(params), Name(name))
    }

    /**
     * `getParam($name)` as declared: the PHP-empty case returns null through a
     * `string|array` return type, which throws.
     */
    function GetParamAsDeclared(name: string): (r: Result<Value, Exception>)
      reads this
      ensures r.Failure? <==> IsEmpty(Stored(name))
      ensures r.Success? ==> r.value.Str? || r.value.Arr?
      ensures r.Success? && (Stored(name).Str? || Stored(name).Arr?) ==> r.value == Stored(name)
    {
      if !IsEmpty(Stored(name)) then AsStringOrArray(Stored(name))
      else AsStringOrArray(Null)
    }

    /** `getParam($name)` as intended: the stored value, or null when it is PHP-empty. */
    function GetParam(name: string): (r: Value)
      reads this
      ensures r == Null <==> IsEmpty(Stored(name))
      ensures r != Null ==> Get(params, Name(name)) == Some(r)
    {
      if !IsEmpty(Stored(name)) then Stored(name) else Null
    }

    /** `isError()`: at least one error has been recorded. */
    function IsError(): (b: bool)
      reads this
      ensures b <==> |errors| > 0
    {
      errors != []
    }

    /** `getResponseArray($response)`, appending the API's errors one by one. */
    method GetResponseArray(received: Received) returns (r: Result<Value, Exception>)
      modifies this`errors
      ensures errors == Classify(received, old(errors)).errors
      ensures r == Classify(received, old(errors)).result
    {
      if received.NoResponse? {
        errors := errors + [NoResponseError];
        return Success(Arr([]));
      }
      var resp := received.response;
      if IsErrorStatus(resp.status) {
        errors := errors + [StatusError(resp.status)];
      }
      if BlankBody(resp) {
        return Success(Arr([]));
      }
      ghost var flagged := errors;
      var reported := Lookup(Lookup(resp.json, Name("result")), Name("errors"));
      if !IsEmpty(reported) && reported.Arr? {
        AppendAll(reported.entries);
      }
      assert errors == flagged + ApiErrors(resp.json);
      if resp.json.Arr? {
        r := Success(resp.json);
      } else {
        r := Failure(NotAnArray);
      }
    }

    /** The `foreach` of `getResponseArray`: appends the values of `entries` in order. */
    method AppendAll(entries: seq<(Key, Value)>)
      modifies this`errors
      ensures errors == old(errors) + Values(entries)
    {
      var i := 0;
      while i < |entries|
        invariant 0 <= i <= |entries|
        invariant errors == old(errors) + Values(entries)[..i]
      {
        errors := errors + [entries[i].1];
        i := i + 1;
      }
      assert Values(entries)[..i] == Values(entries);
    }

    /** `$entity[] = $value` (no offset) or `$entity[$offset] = $value`. */
    method OffsetSet(offset: Option<Key>, value: Value) returns (o: Outcome<Exception>)
      modifies this`data
      ensures var w := WriteOffset(old(data), offset, value);
              (w.Success? ==> o == Pass && data == w.value) &&
              (w.Failure? ==> o == Fail(w.error) && data == old(data))
    {
      var w := WriteOffset(data, offset, value);
      if w.Failure? {
        return Fail(w.error);
      }
      data := w.value;
      o := Pass;
    }

    /**
     * `isset($entity[$offset])`: an array entry that is not null, or an integer
     * offset within a string.
     */
    function OffsetExists(offset: Key): (b: bool)
      reads this
      ensures data.Arr? ==> (b <==> Get(data.entries, offset).Some? && Get(data.entries, offset).value != Null)
      ensures data.Str? ==> (b <==> offset.Index? && -|data.s| <= offset.n < |data.s|)
      ensures !data.Arr? && !data.Str? ==> !b
    {
      IssetOffset(data, offset)
    }

    /** `unset($entity[$offset])`, which throws when the data is a string, an integer or true. */
    method OffsetUnset(offset: Key) returns (o: Outcome<Exception>)
      modifies this`data
      ensures var u := UnsetOffset(old(data), offset);
              (u.Success? ==> o == Pass && data == u.value && !OffsetExists(offset)) &&
              (u.Failure? ==> o == Fail(u.error) && data == old(data))
    ensures old(data).Arr? ==>
              o == Pass && data.Arr? &&
              forall k' :: k' != offset ==> Get(data.entries, k') == Get(old(data).entries, k')
    ensures old(data).Arr? ==>
              forall i :: OnlyAt(old(data).entries, offset, i) ==>
                data.entries == old(data).entries[..i] + old(data).entries[i + 1..]
    {
      var u := UnsetOffset(data, offset);
      if u.Failure? {
        return Fail(u.error);
      }
      data := u.value;
      o := Pass;
    }

    /** `$entity[$offset]` as declared: the value goes through a `bool` return type. */
    function OffsetGetAsDeclared(offset: Key): (r: Result<bool, Exception>)
      reads this
      ensures r.Failure? <==> !OffsetExists(offset) || OffsetGet(offset).Arr?
      ensures r.Success? ==> r.value == !IsEmpty(OffsetGet(offset))
    {
      AsBool(if OffsetExists(offset) then ReadOffset(data, offset) else Null)
    }

    /** `$entity[$offset]` as intended: the value when it is set, null otherwise. */
    function OffsetGet(offset: Key): (r: Value)
      reads this
      ensures r != Null <==> OffsetExists(offset)
      ensures data.Arr? ==> r == Lookup(data, offset)
      ensures data.Str? && OffsetExists(offset) ==> r.Str? && |r.s| == 1
      ensures data.Str? && offset.Index? && 0 <= offset.n < |data.s| ==> r == Str([data.s[offset.n]])
    {
      if OffsetExists(offset) then ReadOffset(data, offset) else Null
    }

    /** `count($entity)`: the number of entries of the data, a TypeError when it is not an array. */
    function Count(): (r: Result<nat, Exception>)
      reads this
      ensures r.Success? <==> data.Arr?
      ensures r.Success? ==> r.value == |data.entries|
    {
      CountOf(data)
    }
  }

  /** An unset parameter makes the declared `getParam` throw, where null was meant. */
  lemma UnsetParamThrows(e: AbstractEntity, name: string)
    requires Get(e.params, Name(name)).None?
    ensures e.GetParamAsDeclared(name).Failure?
    ensures e.GetParam(name) == Null
  {
  }

  /** The declared `offsetGet` turns a stored integer into true, where the integer was meant. */
  lemma OffsetGetCoercesToBool(e: AbstractEntity)
    requires e.data == Arr([(Name("id"), Int(42))])
    ensures e.OffsetGetAsDeclared(Name("id")) == Success(true)
    ensures e.OffsetGet(Name("id")) == Int(42)
  {
    assert Find(e.data.entries, Name("id")) == Some(0);
  }

  /** A parameter reads back as it was set, unless it is PHP-empty; the others are unchanged. */
  lemma SetParamThenGetParam(before: seq<(Key, Value)>, e: AbstractEntity, name: string, other: string, value: Value)
    requires e.params == Put(before, Name(name), value)
    requires other != name
    ensures e.GetParam(name) == if IsEmpty(value) then Null else value
    ensures e.Stored(other) == Lookup(Arr(before), Name(other))
  {
  }
}
