/** How the two entity bases differ in classifying the same response. */
module Classification {
  import opened Wrappers
  import opened Php
  import opened Http
  import V1 = EntityV1
  import V2 = EntityV2

  /**
   * A 404 whose body reports errors: version 1 notes the status and returns []
   * without reading the body, while version 2 notes the status, appends the API's
   * errors after it and returns the decoded body.
   */
  lemma BadStatusStopsOnlyVersion1(resp: Response, errors1: Value, errors2: seq<Value>)
    requires IsErrorStatus(resp.status) && !BlankBody(resp) && resp.json.Arr?
    requires V1.CanNote(errors1)
    requires V2.ApiErrors(resp.json) != []
    ensures var c1 := V1.Classify(Got(resp), errors1);
            c1.Success? && c1.value.decoded == Arr([])
    ensures var c2 := V2.Classify(Got(resp), errors2);
            c2.result == Success(resp.json) && |c2.errors| == |errors2| + 1 + |V2.ApiErrors(resp.json)|
  {
    V2.BadStatusKeepsProcessing(resp, errors2);
  }

  /**
   * API errors on a clean status: version 1 replaces the earlier errors with them,
   * version 2 keeps the earlier errors and appends them.
   */
  lemma ApiErrorsReplaceOrAppend(resp: Response, errors1: Value, errors2: seq<Value>)
    requires !IsErrorStatus(resp.status) && !BlankBody(resp)
    requires !IsEmpty(Lookup(resp.json, Name("errors")))
    ensures var c1 := V1.Classify(Got(resp), errors1);
            c1.Success? && c1.value.errors == Lookup(resp.json, Name("errors"))
    ensures V2.Classify(Got(resp), errors2).errors == errors2 + V2.ApiErrors(resp.json)
  {
  }
}
