/** `Chargify\Component`: component actions of the version 1 API. */
module Component {
  import opened Wrappers
  import opened Php
  import opened Http
  import opened ServiceV1
  import opened EntityV1

  /**
   * The body key `createComponent` wraps the parameters under: the singular of a
   * known component type, "" for any other type.
   */
  function ComponentKey(componentType: string): (key: string)
    ensures key == "" <==>
              componentType != "metered_components" && componentType != "quantity_based_components" &&
              componentType != "on_off_components"
    ensures key != "" ==> key + "s" == componentType
  {
    if componentType == "metered_components" then "metered_component"
    else if componentType == "quantity_based_components" then "quantity_based_component"
    else if componentType == "on_off_components" then "on_off_component"
    else ""
  }

  function SubscriptionComponentPath(subscriptionId: int, componentId: int): string {
    "subscriptions/" + IntToDecimal(subscriptionId) + "/components/" + IntToDecimal(componentId)
  }

  function FamilyPath(productFamilyId: int): string {
    "product_families/" + IntToDecimal(productFamilyId)
  }

  class Component {
    const entity: AbstractEntity

    constructor (service: Chargify)
      ensures fresh(entity) && entity.service == service
      ensures entity.params == [] && entity.errors == Arr([]) && entity.data == Arr([])
    {
      entity := new AbstractEntity(service);
    }

    /** `listSubscription($id)`: the components of a subscription, as a list. */
    method ListSubscription(id: int, send: Outgoing -> Transport) returns (o: Outcome<Exception>)
      modifies entity`errors, entity`data, entity.service`lastResponse
      ensures entity.Performed("subscriptions/" + IntToDecimal(id) + "/components", "GET", None, [],
                               Listed("component"), send, o)
    {
      o := entity.Perform("subscriptions/" + IntToDecimal(id) + "/components", "GET", None, [],
                          Listed("component"), send);
    }

    /** `readSubscription($subscriptionId, $componentId)`. */
    method ReadSubscription(subscriptionId: int, componentId: int, send: Outgoing -> Transport)
      returns (o: Outcome<Exception>)
      modifies entity`errors, entity`data, entity.service`lastResponse
      ensures entity.Performed(SubscriptionComponentPath(subscriptionId, componentId), "GET", None, [],
                               Record("component"), send, o)
    {
      o := entity.Perform(SubscriptionComponentPath(subscriptionId, componentId), "GET", None, [],
                          Record("component"), send);
    }

    /** `setQuantityAllocation(...)`: PUT with the parameters under "component", read back from "component". */
    method SetQuantityAllocation(subscriptionId: int, componentId: int, send: Outgoing -> Transport)
      returns (o: Outcome<Exception>)
      modifies entity`errors, entity`data, entity.service`lastResponse
      ensures entity.Performed(SubscriptionComponentPath(subscriptionId, componentId), "PUT",
                               Some(Wrapped("component", entity.params)), [], Record("component"), send, o)
    {
      o := entity.Perform(SubscriptionComponentPath(subscriptionId, componentId), "PUT",
                          Some(Wrapped("component", entity.params)), [], Record("component"), send);
    }

    /** `createQuantityAllocation(...)`: POST .../allocations under "allocation", read back from "allocation". */
    method CreateQuantityAllocation(subscriptionId: int, componentId: int, send: Outgoing -> Transport)
      returns (o: Outcome<Exception>)
      modifies entity`errors, entity`data, entity.service`lastResponse
      ensures entity.Performed(SubscriptionComponentPath(subscriptionId, componentId) + "/allocations", "POST",
                               Some(Wrapped("allocation", entity.params)), [], Record("allocation"), send, o)
    {
      o := entity.Perform(SubscriptionComponentPath(subscriptionId, componentId) + "/allocations", "POST",
                          Some(Wrapped("allocation", entity.params)), [], Record("allocation"), send);
    }

    /** `createUsage(...)`: POST .../usages under "usage", read back from "usage". */
    method CreateUsage(subscriptionId: int, componentId: int, send: Outgoing -> Transport)
      returns (o: Outcome<Exception>)
      modifies entity`errors, entity`data, entity.service`lastResponse
      ensures entity.Performed(SubscriptionComponentPath(subscriptionId, componentId) + "/usages", "POST",
                               Some(Wrapped("usage", entity.params)), [], Record("usage"), send, o)
    {
      o := entity.Perform(SubscriptionComponentPath(subscriptionId, componentId) + "/usages", "POST",
                          Some(Wrapped("usage", entity.params)), [], Record("usage"), send);
    }

    /** `listProductFamily($productFamilyId)`: the components of a product family, as a list. */
    method ListProductFamily(productFamilyId: int, send: Outgoing -> Transport) returns (o: Outcome<Exception>)
      modifies entity`errors, entity`data, entity.service`lastResponse
      ensures entity.Performed(FamilyPath(productFamilyId) + "/components", "GET", None, [],
                               Listed("component"), send, o)
    {
      o := entity.Perform(FamilyPath(productFamilyId) + "/components", "GET", None, [], Listed("component"), send);
    }

    /** `readProductFamily($productFamilyId, $componentId)`. */
    method ReadProductFamily(productFamilyId: int, componentId: int, send: Outgoing -> Transport)
      returns (o: Outcome<Exception>)
      modifies entity`errors, entity`data, entity.service`lastResponse
      ensures entity.Performed(FamilyPath(productFamilyId) + "/components/" + IntToDecimal(componentId), "GET",
                               None, [], Record("component"), send, o)
    {
      o := entity.Perform(FamilyPath(productFamilyId) + "/components/" + IntToDecimal(componentId), "GET",
                          None, [], Record("component"), send);
    }

    /**
     * `createComponent($productFamilyId, $componentType)`: POST to the type's
     * collection, the parameters under the type's key; only a 201 yields data.
     */
    method CreateComponent(productFamilyId: int, componentType: string, send: Outgoing -> Transport)
      returns (o: Outcome<Exception>)
      modifies entity`errors, entity`data, entity.service`lastResponse
      ensures entity.Performed(FamilyPath(productFamilyId) + "/" + componentType, "POST",
                               Some(Wrapped(ComponentKey(componentType), entity.params)), [],
                               RecordOn201("component"), send, o)
    {
      var key := ComponentKey(componentType);
      o := entity.Perform(FamilyPath(productFamilyId) + "/" + componentType, "POST",
                          Some(Wrapped(key, entity.params)), [], RecordOn201("component"), send);
    }
  }

  /** A component created with a 200 instead of a 201 leaves the data empty. */
  lemma CreatedNeeds201(resp: Response, errors: Value)
    requires resp.status != 201
    ensures var r := Classify(Got(resp), errors);
            r.Success? ==> NewData(RecordOn201("component"), Fetched(Got(resp), r.value)) == Success(Arr([]))
  {
  }

  /** A clean 201 yields the record under "component". */
  lemma CreatedWith201(resp: Response, errors: Value)
    requires resp.status == 201 && !BlankBody(resp) && IsEmpty(Lookup(resp.json, Name("errors"))) && IsEmpty(errors)
    ensures var r := Classify(Got(resp), errors);
            r.Success? &&
            NewData(RecordOn201("component"), Fetched(Got(resp), r.value))
            == (if resp.json.Str? then Failure(StringOffsetType) else Success(Lookup(resp.json, Name("component"))))
  {
  }
}
