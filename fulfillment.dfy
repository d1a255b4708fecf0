/** The `Fulfillment` dataclass: seven required fields, no post-processing. */
module FulfillmentModel {
  import opened Values
  import opened Dataclasses

  /** The declared fields, in declaration order. */
  const FulfillmentFields: seq<string> :=
    ["created_at", "id", "order_id", "status", "tracking_company", "tracking_number", "updated_at"]

  /** `Fulfillment(**v)`: exactly the seven declared keys are accepted, and
      each field holds the value given for it. */
  function NewFulfillment(v: Value): (r: Result<Value>)
    ensures r.Ok? <==>
      v.Dict? &&
      v.entries.Keys ==
        {"created_at", "id", "order_id", "status", "tracking_company", "tracking_number", "updated_at"}
    ensures r.Ok? ==> r.value == Instance("Fulfillment", v.entries)
    ensures r.Err? ==> r.error == TypeError(BadConstructorCall("Fulfillment"))
  {
    Init("Fulfillment", FulfillmentFields, v)
  }

  /** `Fulfillment(x)` with one positional argument, as the typed branch of
      `get_fulfillments` calls it: `x` binds to `created_at` and the six
      other fields are missing, so the call always raises. */
  function FulfillmentFromOneArg(x: Value): (r: Result<Value>)
    ensures r == Err(TypeError(BadConstructorCall("Fulfillment")))
  {
    CallOneArg("Fulfillment", FulfillmentFields, x)
  }
}
