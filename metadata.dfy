/** `Chargify\Metadata`: attaching metadata to a subscription. */
module Metadata {
  import opened Wrappers
  import opened Php
  import opened Http
  import opened ServiceV1
  import opened EntityV1

  /** An array key as a PHP value: an integer key or a string key. */
  function KeyValue(k: Key): (v: Value)
    ensures k.Index? ==> v == Int(k.n)
    ensures k.Name? ==> v == Str(k.s)
  {
    match k
    case Index(n) => Int(n)
    case Name(s) => Str(s)
  }

  /** `['name' => $key, 'value' => $value]`. */
  function Entry(k: Key, v: Value): Value {
    Arr([(Name("name"), KeyValue(k)), (Name("value"), v)])
  }

  /** One name/value entry per parameter, in the parameters' order. */
  function Entries(params: seq<(Key, Value)>): (es: seq<Value>)
    ensures |es| == |params|
    ensures forall j :: 0 <= j < |params| ==> es[j] == Entry(params[j].0, params[j].1)
  {
    if params == [] then [] else [Entry(params[0].0, params[0].1)] + Entries(params[1..])
  }

  /** The `foreach` of `create()`: builds the list of name/value entries. */
  method MetadataList(params: seq<(Key, Value)>) returns (list: Value)
    ensures list == Arr(List(Entries(params)))
  {
    ghost var entries := Entries(params);
    var out: seq<(Key, Value)> := [];
    var i := 0;
    while i < |params|
      invariant 0 <= i <= |params|
      invariant out == List(entries[..i])
    {
      PushOntoList(entries[..i], Entry(params[i].0, params[i].1));
      assert entries[..i] + [entries[i]] == entries[..i + 1];
      out := Push(out, Entry(params[i].0, params[i].1));
      i := i + 1;
    }
    assert entries[..i] == entries;
    list := Arr(out);
  }

  /** Each entry names its parameter and carries its value; the list is as long as the parameters. */
  lemma EntryNamesParameter(params: seq<(Key, Value)>, j: nat)
    requires j < |params|
    ensures var list := List(Entries(params));
            |list| == |params| && list[j].0 == Index(j) &&
            Lookup(list[j].1, Name("name")) == KeyValue(params[j].0) &&
            Lookup(list[j].1, Name("value")) == params[j].1
  {
    var e := [(Name("name"), KeyValue(params[j].0)), (Name("value"), params[j].1)];
    assert Find(e, Name("name")) == Some(0);
    assert Find(e, Name("value")) == Some(1);
  }

  class Metadata {
    const entity: AbstractEntity

    constructor (service: Chargify)
      ensures fresh(entity) && entity.service == service
      ensures entity.params == [] && entity.errors == Arr([]) && entity.data == Arr([])
    {
      entity := new AbstractEntity(service);
    }

    /** `create($subscriptionId)`: POST the list under "metadata"; the data is the whole response array. */
    method Create(subscriptionId: int, send: Outgoing -> Transport) returns (o: Outcome<Exception>)
      modifies entity`errors, entity`data, entity.service`lastResponse
      ensures entity.Performed("subscriptions/" + IntToDecimal(subscriptionId) + "/metadata", "POST",
                               Some(JsonOf(Arr([(Name("metadata"), Arr(List(Entries(entity.params))))]))), [],
                               Whole, send, o)
    {
      var list := MetadataList(entity.params);
      o := entity.Perform("subscriptions/" + IntToDecimal(subscriptionId) + "/metadata", "POST",
                          Some(JsonOf(Arr([(Name("metadata"), list)]))), [], Whole, send);
    }
  }
}
