/**
 * The base of the version 1 entities (`Chargify\AbstractEntity`): request
 * parameters, the error map, the data behind ArrayAccess, the rule that turns a
 * response into an array, and the steps every action of Subscription, Component
 * and Metadata goes through.
 */
module EntityV1 {
  import opened Wrappers
  import opened Php
  import opened Http
  import opened ServiceV1

  /** The key under which the SDK files the errors it detects itself. */
  const ClientKey := Name("Crucial_Service_Chargify")

  /** The error map after `getResponseArray`, and the array it returns. */
  datatype Classified = Classified(errors: Value, decoded: Value)

  /** The error map, and the entry under the SDK's key, can be written into. */
  predicate CanNote(errors: Value) {
    Container(errors).Some? && Container(Lookup(errors, ClientKey)).Some?
  }

  /** `$this->_errors['Crucial_Service_Chargify'][$key] = $v; return [];` */
  function Note(errors: Value, key: string, v: Value): (r: Result<Classified, Exception>)
    requires v != Null
    ensures r.Failure? <==> !CanNote(errors)
    ensures r.Success? ==> r.value.decoded == Arr([]) && !IsEmpty(r.value.errors)
    ensures r.Success? ==> Lookup(Lookup(r.value.errors, ClientKey), Name(key)) == v
    ensures r.Success? ==>
              r.value.errors.Arr? &&
              forall k' :: k' != ClientKey ==> Get(r.value.errors.entries, k') == Get(Container(errors).value, k')
    ensures r.Success? ==>
              Lookup(r.value.errors, ClientKey).Arr? &&
              forall k' :: k' != Name(key) ==>
                Get(Lookup(r.value.errors, ClientKey).entries, k') == Get(Container(Lookup(errors, ClientKey)).value, k')
  {
    match WriteNested(errors, ClientKey, Name(key), v)
    case Failure(e) => Failure(e)
    case Success(w) =>
      assert Lookup(w, ClientKey) != Null;
      Success(Classified(w, Arr([])))
  }

  /**
   * `getResponseArray($response)`: no response and a 404, 401 or 500 are noted
   * under the SDK's own key and end processing with []; a blank body gives []; a
   * non-empty `errors` entry in the decoded body replaces the whole error map.
   * Writing a note into an error map that is a scalar throws.
   */
  function Classify(received: Received, errors: Value): (r: Result<Classified, Exception>)
    ensures r.Failure? <==> (received.NoResponse? || IsErrorStatus(received.response.status)) && !CanNote(errors)
    ensures r.Success? && (received.NoResponse? || IsErrorStatus(received.response.status)) ==>
              r.value.decoded == Arr([]) && !IsEmpty(r.value.errors)
  {
    match received
    case NoResponse => Note(errors, "networking error", Str("no response"))
    case Got(resp) =>
      if IsErrorStatus(resp.status) then Note(errors, "Bad status code", Int(resp.status))
      else if BlankBody(resp) then Success(Classified(errors, Arr([])))
      else
        var reported := Lookup(resp.json, Name("errors"));
        Success(Classified(if !IsEmpty(reported) then reported else errors, resp.json))
  }

  /** A bad status code ends processing: the body, whatever it holds, is not decoded. */
  lemma BadStatusStopsEarly(resp: Response, errors: Value)
    requires IsErrorStatus(resp.status) && CanNote(errors)
    ensures var r := Classify(Got(resp), errors);
            r.Success? && r.value.decoded == Arr([]) &&
            Lookup(Lookup(r.value.errors, ClientKey), Name("Bad status code")) == Int(resp.status)
  {
  }

  /** Errors reported by the API replace every earlier error instead of being added to them. */
  lemma ApiErrorsReplace(resp: Response, errors: Value)
    requires !IsErrorStatus(resp.status) && !BlankBody(resp)
    requires !IsEmpty(Lookup(resp.json, Name("errors")))
    ensures Classify(Got(resp), errors) == Success(Classified(Lookup(resp.json, Name("errors")), resp.json))
  {
  }

  /** With no response, a fresh entity records exactly the networking error. */
  lemma NoResponseRecordsNetworkingError()
    ensures Classify(NoResponse, Arr([])) ==
            Success(Classified(Arr([(ClientKey, Arr([(Name("networking error"), Str("no response"))]))]), Arr([])))
  {
    var inner := [(Name("networking error"), Str("no response"))];
    assert Put([], Name("networking error"), Str("no response")) == inner;
    assert WriteOffset(Null, Some(Name("networking error")), Str("no response")) == Success(Arr(inner));
    assert Put([], ClientKey, Arr(inner)) == [(ClientKey, Arr(inner))];
  }

  /** A blank body from an acceptable status leaves the errors as they were. */
  lemma BlankBodyKeepsErrors(resp: Response, errors: Value)
    requires !IsErrorStatus(resp.status) && BlankBody(resp)
    ensures Classify(Got(resp), errors) == Success(Classified(errors, Arr([])))
  {
  }

  /** An error map that is PHP-empty after `getResponseArray` means a response was received. */
  lemma ErrorFreeMeansAnswered(received: Received, errors: Value)
    ensures Classify(received, errors).Success? && IsEmpty(Classify(received, errors).value.errors) ==> received.Got?
  {
  }

  /** `getRawData(array($key => $this->_params))`. */
  function Wrapped(key: string, params: seq<(Key, Value)>): Payload {
    JsonOf(Arr([(Name(key), Arr(params))]))
  }

  /** What the first two statements of an action yield: the response, then `getResponseArray` of it. */
  datatype Fetched = Fetched(received: Received, classified: Classified)

  function Fetch(prepared: Result<Outgoing, Exception>, send: Outgoing -> Transport, errors: Value)
    : (r: Result<Fetched, Exception>)
    ensures prepared.Failure? ==> r == Failure(prepared.error)
    ensures prepared.Success? ==>
              var received := Receive(send(prepared.value));
              var c := Classify(received, errors);
              (c.Failure? ==> r == Failure(c.error)) && (c.Success? ==> r == Success(Fetched(received, c.value)))
  {
    match prepared
    case Failure(e) => Failure(e)
    case Success(req) =>
      var received := Receive(send(req));
      match Classify(received, errors)
      case Failure(e) => Failure(e)
      case Success(c) => Success(Fetched(received, c))
  }

  /** The service's last response after a request that was, or was not, prepared. */
  function LastResponseAfter(prepared: Result<Outgoing, Exception>, send: Outgoing -> Transport,
                             before: Option<Received>): Option<Received>
  {
    if prepared.Success? then Some(Receive(send(prepared.value))) else before
  }

  /** What `foreach` visits: the entries of an array, nothing for any other value. */
  function Iterated(v: Value): seq<(Key, Value)> {
    if v.Arr? then v.entries else []
  }

  /**
   * `$prod[$key]` of every element, in order: the list `_normalizeResponseArray`
   * builds, or the TypeError of the first element that is a string.
   */
  function Projection(entries: seq<(Key, Value)>, key: string): (r: Result<seq<Value>, Exception>)
    ensures r.Success? <==> forall j :: 0 <= j < |entries| ==> !entries[j].1.Str?
    ensures r.Failure? ==> r.error == StringOffsetType
    ensures r.Success? ==> |r.value| == |entries|
    ensures r.Success? ==> forall j :: 0 <= j < |entries| ==> r.value[j] == Lookup(entries[j].1, Name(key))
  {
    if entries == [] then Success([])
    else
      match ReadKey(entries[0].1, Name(key))
      case Failure(e) => Failure(e)
      case Success(v) =>
        match Projection(entries[1..], key)
        case Failure(e) => Failure(e)
        case Success(vs) =>
          assert forall j :: 1 <= j < |entries| ==> entries[j] == entries[1..][j - 1];
          Success([v] + vs)
  }

  /** The data `_normalizeResponseArray` yields: the projected list, or the exception. */
  function ListedData(responseArray: Value, key: string): (r: Result<Value, Exception>)
    ensures Projection(Iterated(responseArray), key).Failure? ==> r == Failure(StringOffsetType)
    ensures Projection(Iterated(responseArray), key).Success? ==>
              r == Success(Arr(List(Projection(Iterated(responseArray), key).value)))
  {
    match Projection(Iterated(responseArray), key)
    case Failure(e) => Failure(e)
    case Success(vs) => Success(Arr(List(vs)))
  }

  /**
   * `_normalizeResponseArray($responseArray)` of Subscription (key "subscription")
   * and Component (key "component"): one element per element of the response array.
   */
  method NormalizeResponseArray(responseArray: Value, key: string) returns (r: Result<Value, Exception>)
    ensures r == ListedData(responseArray, key)
  {
    var entries := Iterated(responseArray);
    ghost var read: seq<Value> := [];
    var out: seq<(Key, Value)> := [];
    var i := 0;
    while i < |entries|
      invariant 0 <= i <= |entries| && |read| == i
      invariant forall j :: 0 <= j < i ==> !entries[j].1.Str? && read[j] == Lookup(entries[j].1, Name(key))
      invariant out == List(read)
    {
      var v := ReadKey(entries[i].1, Name(key));
      if v.Failure? {
        return Failure(v.error);
      }
      PushOntoList(read, v.value);
      out := Push(out, v.value);
      read := read + [v.value];
      i := i + 1;
    }
    assert read == Projection(entries, key).value;
    r := Success(Arr(out));
  }

  /** How an action sets `_data` once the entity is free of errors (it is [] otherwise). */
  datatype DataRule =
    | Record(key: string)        // the record under `key`
    | RecordOn201(key: string)   // the record under `key`, only when the status is 201
    | Listed(key: string)        // `_normalizeResponseArray` with `key`
    | Whole                      // the whole response array

  /**
   * The data an action sets, or the TypeError of reading a record out of a
   * response array that is a string.
   */
  function NewData(rule: DataRule, f: Fetched): (d: Result<Value, Exception>)
    ensures !IsEmpty(f.classified.errors) ==> d == Success(Arr([]))
    ensures d.Failure? ==> d.error == StringOffsetType && !rule.Whole?
    ensures IsEmpty(f.classified.errors) && rule.Record? ==>
              (d.Failure? <==> f.classified.decoded.Str?) &&
              (d.Success? ==> d.value == Lookup(f.classified.decoded, Name(rule.key)))
  {
    if !IsEmpty(f.classified.errors) then Success(Arr([]))
    else
      match rule
      case Record(key) => ReadKey(f.classified.decoded, Name(key))
      case RecordOn201(key) =>
        if f.received.Got? && f.received.response.status == 201 then ReadKey(f.classified.decoded, Name(key))
        else Success(Arr([]))
      case Listed(key) => ListedData(f.classified.decoded, key)
      case Whole => Success(f.classified.decoded)
  }

  /** A 404, 401 or 500 leaves every action with empty data, whatever its rule. */
  lemma ErrorStatusEmptiesData(rule: DataRule, resp: Response, errors: Value)
    requires IsErrorStatus(resp.status) && CanNote(errors)
    ensures var r := Classify(Got(resp), errors);
            r.Success? && NewData(rule, Fetched(Got(resp), r.value)) == Success(Arr([]))
  {
  }

  /** A listed action keeps one element per element of the response, in order. */
  lemma ListedKeepsOrder(key: string, f: Fetched, j: nat)
    requires IsEmpty(f.classified.errors) && f.classified.decoded.Arr?
    requires forall i :: 0 <= i < |f.classified.decoded.entries| ==> !f.classified.decoded.entries[i].1.Str?
    requires j < |f.classified.decoded.entries|
    ensures var d := NewData(Listed(key), f);
            d.Success? && d.value.Arr? && |d.value.entries| == |f.classified.decoded.entries| &&
            d.value.entries[j] == (Index(j), Lookup(f.classified.decoded.entries[j].1, Name(key)))
  {
  }

  /** A listed action whose response holds a string element throws instead of setting the data. */
  lemma StringElementStopsListing(key: string, f: Fetched, j: nat)
    requires IsEmpty(f.classified.errors) && f.classified.decoded.Arr?
    requires j < |f.classified.decoded.entries| && f.classified.decoded.entries[j].1.Str?
    ensures NewData(Listed(key), f) == Failure(StringOffsetType)
  {
  }

  class AbstractEntity {
    const service: Chargify
    var params: seq<(Key, Value)>
    var errors: Value
    var data: Value

    constructor (service: Chargify)
      ensures this.service == service
      ensures params == [] && errors == Arr([]) && data == Arr([])
    {
      this.service := service;
      params := [];
      errors := Arr([]);
      data := Arr([]);
    }

    /** `setParam($param, $value)`: sets that one parameter. */
    method SetParam(name: string, value: Value)
      modifies this`params
      ensures params == Put(old(params), Name(name), value)
    {
      params := Put(params, Name(name), value);
    }

    /** `getParam($name)`: the stored value, or null when it is missing or PHP-empty. */
    function GetParam(name: string): (r: Value)
      reads this
      ensures r == Null <==> Get(params, Name(name)).None? || IsEmpty(Get(params, Name(name)).value)
      ensures r != Null ==> Get(params, Name(name)) == Some(r)
    {
      var stored := Lookup(Arr(params), Name(name));
      if !IsEmpty(stored) then stored else Null
    }

    /** `isError()`: the error map is not PHP-empty. */
    function IsError(): (b: bool)
      reads this
      ensures !b <==> errors == Null || errors == Bool(false) || errors == Int(0) || errors == Str("")
                      || errors == Str("0") || errors == Arr([])
    {
      !IsEmpty(errors)
    }

    /** `getResponseArray($response)`. */
    method GetResponseArray(received: Received) returns (r: Result<Value, Exception>)
      modifies this`errors
      ensures var c := Classify(received, old(errors));
              (c.Success? ==> r == Success(c.value.decoded) && errors == c.value.errors) &&
              (c.Failure? ==> r == Failure(c.error) && errors == old(errors))
    {
      var c := Classify(received, errors);
      if c.Failure? {
        return Failure(c.error);
      }
      errors := c.value.errors;
      r := Success(c.value.decoded);
    }

    /** `$entity[] = $value` (no offset) or `$entity[$offset] = $value`. */
    method OffsetSet(offset: Option<Key>, value: Value) returns (o: Outcome<Exception>)
      modifies this`data
      ensures var w := WriteOffset(old(data), offset, value);
              (w.Success? ==> o == Pass && data == w.value) &&
              (w.Failure? ==> o == Fail(w.error) && data == old(data))
    {
      var w := WriteOffset(data, offset, value);
      if w.Failure? {
        return Fail(w.error);
      }
      data := w.value;
      o := Pass;
    }

    /**
     * `isset($entity[$offset])`: an array entry that is not null, or an integer
     * offset within a string.
     */
    function OffsetExists(offset: Key): (b: bool)
      reads this
      ensures data.Arr? ==> (b <==> Get(data.entries, offset).Some? && Get(data.entries, offset).value != Null)
      ensures data.Str? ==> (b <==> offset.Index? && -|data.s| <= offset.n < |data.s|)
      ensures !data.Arr? && !data.Str? ==> !b
    {
      IssetOffset(data, offset)
    }

    /** `unset($entity[$offset])`, which throws when the data is a string, an integer or true. */
    method OffsetUnset(offset: Key) returns (o: Outcome<Exception>)
      modifies this`data
      ensures var u := UnsetOffset(old(data), offset);
              (u.Success? ==> o == Pass && data == u.value && !OffsetExists(offset)) &&
              (u.Failure? ==> o == Fail(u.error) && data == old(data))
    ensures old(data).Arr? ==>
              o == Pass && data.Arr? &&
              forall k' :: k' != offset ==> Get(data.entries, k') == Get(old(data).entries, k')
    ensures old(data).Arr? ==>
              forall i :: OnlyAt(old(data).entries, offset, i) ==>
                data.entries == old(data).entries[..i] + old(data).entries[i + 1..]
    {
      var u := UnsetOffset(data, offset);
      if u.Failure? {
        return Fail(u.error);
      }
      data := u.value;
      o := Pass;
    }

    /** `$entity[$offset]`: the value when it is set, null otherwise. */
    function OffsetGet(offset: Key): (r: Value)
      reads this
      ensures r != Null <==> OffsetExists(offset)
      ensures data.Arr? ==> r == Lookup(data, offset)
      ensures data.Str? && OffsetExists(offset) ==> r.Str? && |r.s| == 1
      ensures data.Str? && offset.Index? && 0 <= offset.n < |data.s| ==> r == Str([data.s[offset.n]])
    {
      if OffsetExists(offset) then ReadOffset(data, offset) else Null
    }

    /** `count($entity)`: the number of entries of the data, a TypeError when it is not an array. */
    function Count(): (r: Result<nat, Exception>)
      reads this
      ensures r.Success? <==> data.Arr?
      ensures r.Success? ==> r.value == |data.entries|
    {
      CountOf(data)
    }

    /**
     * What an action did: the request went out (or was refused), `getResponseArray`
     * ran, and `_data` was set by the action's rule; an exception leaves the data.
     */
    twostate predicate Performed(path: string, verb: string, rawData: Option<Payload>, query: seq<(Key, Value)>,
                                 rule: DataRule, send: Outgoing -> Transport, new o: Outcome<Exception>)
      reads this, service
    {
      var prepared := Prepare(path, verb, rawData, query, "." + Format);
      var f := Fetch(prepared, send, old(errors));
      && service.lastResponse == LastResponseAfter(prepared, send, old(service.lastResponse))
      && (f.Failure? ==> o == Fail(f.error) && errors == old(errors) && data == old(data))
      && (f.Success? ==>
            var d := NewData(rule, f.value);
            && errors == f.value.classified.errors
            && (d.Failure? ==> o == Fail(d.error) && data == old(data))
            && (d.Success? ==> o == Pass && data == d.value))
    }

    /**
     * The body shared by the actions: `request(...)`, `getResponseArray(...)`, then
     * `_data` from the response array, or [] when the entity is in error.
     */
    method Perform(path: string, verb: string, rawData: Option<Payload>, query: seq<(Key, Value)>,
                   rule: DataRule, send: Outgoing -> Transport)
      returns (o: Outcome<Exception>)
      modifies this`errors, this`data, service`lastResponse
      ensures Performed(path, verb, rawData, query, rule, send, o)
    {
      var response := service.Request(path, verb, rawData, query, send);
      if response.Failure? {
        return Fail(response.error);
      }
      var received := response.value;
      ErrorFreeMeansAnswered(received, errors);
      var decoded := GetResponseArray(received);
      if decoded.Failure? {
        return Fail(decoded.error);
      }
      var d: Result<Value, Exception>;
      if IsError() {
        d := Success(Arr([]));
      } else {
        match rule
        case Record(key) =>
          d := ReadKey(decoded.value, Name(key));
        case RecordOn201(key) =>
          if received.response.status == 201 {
            d := ReadKey(decoded.value, Name(key));
          } else {
            d := Success(Arr([]));
          }
        case Listed(key) =>
          d := NormalizeResponseArray(decoded.value, key);
        case Whole =>
          d := Success(decoded.value);
      }
      if d.Failure? {
        return Fail(d.error);
      }
      data := d.value;
      o := Pass;
    }
  }
}
