/** The `Order` dataclass and the records nested in it. `Order.__post_init__`
    reassigns twenty of its fields, one after another, to records built from
    the mappings they hold; a failing conversion aborts the construction. */
module OrderModel {
  import opened Values
  import opened Dataclasses
  import opened CustomerModel

  /** The 83 declared fields of `Order`, in declaration order (kept as
      three displays so that each position can be looked up). */
  const OrderFields: seq<string> := OrderFieldsHead + OrderFieldsMiddle + OrderFieldsTail

  const OrderFieldsHead: seq<string> :=
    ["app_id", "billing_address", "browser_ip", "buyer_accepts_marketing", "cancel_reason",
     "cancelled_at", "cart_token", "checkout_token", "client_details", "closed_at", "company",
     "confirmation_number", "created_at", "currency", "current_total_additional_fees_set",
     "current_total_discounts", "current_total_discounts_set", "current_total_duties_set",
     "current_total_price", "current_total_price_set", "current_subtotal_price",
     "current_subtotal_price_set", "current_total_tax", "current_total_tax_set", "customer",
     "customer_locale", "discount_applications", "discount_codes"]

  const OrderFieldsMiddle: seq<string> :=
    ["email", "estimated_taxes", "financial_status", "fulfillments", "fulfillment_status",
     "gateway", "id", "landing_site", "line_items", "location_id", "merchant_of_record_app_id",
     "name", "note", "note_attributes", "number", "order_number",
     "original_total_additional_fees_set", "original_total_duties_set", "payment_details",
     "payment_terms", "payment_gateway_names", "phone", "po_number", "presentment_currency",
     "processed_at", "processing_method", "referring_site", "refunds"]

  const OrderFieldsTail: seq<string> :=
    ["shipping_address", "shipping_lines", "source_name", "source_identifier", "source_url",
     "subtotal_price", "subtotal_price_set", "tags", "tax_lines", "taxes_included", "test",
     "token", "total_discounts", "total_discounts_set", "total_line_items_price",
     "total_line_items_price_set", "total_outstanding", "total_price", "total_price_set",
     "total_shipping_price_set", "total_tax", "total_tax_set", "total_tip_received",
     "total_weight", "updated_at", "user_id", "order_status_url"]

  const ClientDetailsFields: seq<string> :=
    ["accept_language", "browser_height", "browser_ip", "browser_width", "session_hash",
     "user_agent"]

  const CompanyFields: seq<string> := ["id", "location_id"]

  /** The fields of every money-set class (`CurrentTotalPriceSet`,
      `CurrentTotalDiscountsSet` and the four others like them). */
  const MoneySetFields: seq<string> := ["shop_money", "presentment_money"]

  const DiscountApplicationFields: seq<string> :=
    ["type", "title", "description", "value", "value_type", "allocation_method",
     "target_selection", "target_type"]

  const PaymentDetailsFields: seq<string> :=
    ["avs_result_code", "credit_card_bin", "cvv_result_code", "credit_card_number",
     "credit_card_company"]

  const PaymentTermsFields: seq<string> :=
    ["amount", "currency", "payment_terms_name", "payment_terms_type", "due_in_days",
     "payment_schedules"]

  /** What a field is converted into: a dataclass without post-processing,
      or a `Customer`, which post-processes its own addresses. */
  datatype Target = Record(cls: string, fields: seq<string>) | NestedCustomer

  /** The class a conversion produces. */
  function TargetClass(target: Target): string {
    match target
    case Record(cls, _) => cls
    case NestedCustomer => "Customer"
  }

  /** `Target(**v)` for one field's current value. */
  function Convert(target: Target, v: Value): (r: Result<Value>)
    ensures r.Ok? ==> r.value.Instance? && r.value.cls == TargetClass(target)
  {
    match target
    case Record(cls, fields) => Init(cls, fields, v)
    case NestedCustomer => CustomerSpec(v)
  }

  /** The reassignments of `Order.__post_init__`, in source order. */
  const Conversions: seq<(string, Target)> := [
    ("billing_address", Record("Address", AddressFields)),
    ("client_details", Record("ClientDetails", ClientDetailsFields)),
    ("company", Record("Company", CompanyFields)),
    ("current_total_additional_fees_set", Record("CurrentTotalAdditionalFeesSet", MoneySetFields)),
    ("current_total_discounts_set", Record("CurrentTotalDiscountsSet", MoneySetFields)),
    ("current_total_duties_set", Record("CurrentTotalDutiesSet", MoneySetFields)),
    ("current_total_price_set", Record("CurrentTotalPriceSet", MoneySetFields)),
    ("customer", NestedCustomer),
    ("discount_applications", Record("DiscountApplication", DiscountApplicationFields)),
    ("original_total_additional_fees_set", Record("OriginalTotalAdditionalFeesSet", MoneySetFields)),
    ("original_total_duties_set", Record("OriginalTotalDutiesSet", MoneySetFields)),
    ("payment_details", Record("PaymentDetails", PaymentDetailsFields)),
    ("payment_terms", Record("PaymentTerms", PaymentTermsFields)),
    ("shipping_address", Record("Address", AddressFields)),
    ("subtotal_price_set", Record("CurrentTotalPriceSet", MoneySetFields)),
    ("total_discounts_set", Record("CurrentTotalDiscountsSet", MoneySetFields)),
    ("total_line_items_price_set", Record("CurrentTotalPriceSet", MoneySetFields)),
    ("total_price_set", Record("CurrentTotalPriceSet", MoneySetFields)),
    ("total_shipping_price_set", Record("CurrentTotalPriceSet", MoneySetFields)),
    ("total_tax_set", Record("CurrentTotalPriceSet", MoneySetFields))
  ]

  /** The fields a conversion table reassigns from position `k` on. */
  function NamesFrom<T>(table: seq<(string, T)>, k: nat): set<string> {
    set i | k <= i < |table| :: table[i].0
  }

  /** No field is reassigned twice. */
  predicate Distinct<T>(table: seq<(string, T)>) {
    forall i, j :: 0 <= i < j < |table| ==> table[i].0 != table[j].0
  }

  /** Runs the reassignments `table[k..]` on the attributes `attrs`, in
      order, converting each field's value with `convert`: the attributes
      they leave, or the first exception raised. */
  function Apply<T>(convert: (T, Value) -> Result<Value>, attrs: map<string, Value>,
                    table: seq<(string, T)>, k: nat): (r: Result<map<string, Value>>)
    requires k <= |table|
    requires NamesFrom(table, k) <= attrs.Keys
    ensures r.Ok? ==> r.value.Keys == attrs.Keys
    ensures r.Ok? ==> forall f :: f in attrs && f !in NamesFrom(table, k) ==> r.value[f] == attrs[f]
    decreases |table| - k
  {
    if k == |table| then Ok(attrs)
    else
      var name := table[k].0;
      assert name in NamesFrom(table, k);
      assert NamesFrom(table, k + 1) <= NamesFrom(table, k);
      match convert(table[k].1, attrs[name])
      case Err(e) => Err(e)
      case Ok(x) => Apply(convert, attrs[name := x], table, k + 1)
  }

  /** What running a table of distinct reassignments means: it succeeds
      exactly when every listed field converts, every listed field then
      holds its converted record, and otherwise the first listed field that
      fails decides the exception. */
  lemma {:induction false} ApplyMeaning<T>(convert: (T, Value) -> Result<Value>, attrs: map<string, Value>,
                                           table: seq<(string, T)>, k: nat)
    requires k <= |table|
    requires NamesFrom(table, k) <= attrs.Keys
    requires Distinct(table)
    ensures Apply(convert, attrs, table, k).Ok? <==>
      forall i :: k <= i < |table| ==> convert(table[i].1, attrs[table[i].0]).Ok?
    ensures Apply(convert, attrs, table, k).Ok? ==>
      forall i :: k <= i < |table| ==>
        Apply(convert, attrs, table, k).value[table[i].0] == convert(table[i].1, attrs[table[i].0]).value
    ensures Apply(convert, attrs, table, k).Err? ==>
      exists i :: k <= i < |table| &&
        convert(table[i].1, attrs[table[i].0]) == Err(Apply(convert, attrs, table, k).error) &&
        forall j :: k <= j < i ==> convert(table[j].1, attrs[table[j].0]).Ok?
    decreases |table| - k
  {
    if k < |table| {
      var name := table[k].0;
      assert name in NamesFrom(table, k);
      assert NamesFrom(table, k + 1) <= NamesFrom(table, k);
      var first := convert(table[k].1, attrs[name]);
      if first.Ok? {
        var next := attrs[name := first.value];
        ApplyMeaning(convert, next, table, k + 1);
        assert forall i :: k < i < |table| ==> next[table[i].0] == attrs[table[i].0];
        assert name !in NamesFrom(table, k + 1);
      }
    }
  }

  /** One reassignment: the first row of `table[k..]` either raises, and so
      does the whole run, or leaves attributes from which the rest runs. */
  lemma ApplyStep<T>(convert: (T, Value) -> Result<Value>, attrs: map<string, Value>,
                     table: seq<(string, T)>, k: nat)
    requires k < |table|
    requires NamesFrom(table, k) <= attrs.Keys
    ensures table[k].0 in attrs
    ensures NamesFrom(table, k + 1) <= attrs.Keys
    ensures convert(table[k].1, attrs[table[k].0]).Err? ==>
      Apply(convert, attrs, table, k) == Err(convert(table[k].1, attrs[table[k].0]).error)
    ensures convert(table[k].1, attrs[table[k].0]).Ok? ==>
      Apply(convert, attrs, table, k) ==
      Apply(convert, attrs[table[k].0 := convert(table[k].1, attrs[table[k].0]).value], table, k + 1)
  {
    assert table[k].0 in NamesFrom(table, k);
    assert NamesFrom(table, k + 1) <= NamesFrom(table, k);
  }

  /** `Order(**v)`: the 83 declared keys, exactly, then the twenty
      reassignments of `__post_init__`. */
  function OrderSpec(v: Value): (r: Result<Value>)
    ensures r.Ok? ==> Binds(OrderFields, v) && r.value.Instance? && r.value.cls == "Order"
    ensures !Binds(OrderFields, v) ==> r == Err(TypeError(BadConstructorCall("Order")))
  {
    match Init("Order", OrderFields, v)
    case Err(e) => Err(e)
    case Ok(record) =>
      ConversionsFacts();
      match Apply(Convert, record.attrs, Conversions, 0)
      case Err(e) => Err(e)
      case Ok(attrs) => Ok(Instance("Order", attrs))
  }

  /** The conversion table reassigns declared fields only, each once. */
  lemma ConversionsFacts()
    ensures Distinct(Conversions)
    ensures NamesFrom(Conversions, 0) <= FieldSet(OrderFields)
  {
    ConversionsDistinct();
    ConversionsDeclared();
  }

  lemma ConversionsDistinct()
    ensures Distinct(Conversions)
  {
  }

  lemma ConversionsDeclared()
    ensures NamesFrom(Conversions, 0) <= FieldSet(OrderFields)
  {
    ConversionNamesDeclared();
    forall n | n in NamesFrom(Conversions, 0) ensures n in FieldSet(OrderFields) {
      var i :| 0 <= i < |Conversions| && Conversions[i].0 == n;
    }
  }

  /** Membership in one of the three displays that make up `OrderFields`. */
  predicate DeclaredOrderField(name: string) {
    name in OrderFieldsHead || name in OrderFieldsMiddle || name in OrderFieldsTail
  }

  lemma ConversionNamesDeclared()
    ensures forall i :: 0 <= i < |Conversions| ==> DeclaredOrderField(Conversions[i].0)
  {
    FirstConversionsDeclared();
    LastConversionsDeclared();
  }

  lemma FirstConversionsDeclared()
    ensures forall i :: 0 <= i < 10 ==> DeclaredOrderField(Conversions[i].0)
  {
    forall i | 0 <= i < 10 ensures DeclaredOrderField(Conversions[i].0) {
      if i == 0 { assert OrderFieldsHead[1] == Conversions[0].0; }
      else if i == 1 { assert OrderFieldsHead[8] == Conversions[1].0; }
      else if i == 2 { assert OrderFieldsHead[10] == Conversions[2].0; }
      else if i == 3 { assert OrderFieldsHead[14] == Conversions[3].0; }
      else if i == 4 { assert OrderFieldsHead[16] == Conversions[4].0; }
      else if i == 5 { assert OrderFieldsHead[17] == Conversions[5].0; }
      else if i == 6 { assert OrderFieldsHead[19] == Conversions[6].0; }
      else if i == 7 { assert OrderFieldsHead[24] == Conversions[7].0; }
      else if i == 8 { assert OrderFieldsHead[26] == Conversions[8].0; }
      else { assert OrderFieldsMiddle[16] == Conversions[9].0; }
    }
  }

  lemma LastConversionsDeclared()
    ensures forall i :: 10 <= i < 20 ==> DeclaredOrderField(Conversions[i].0)
  {
    forall i | 10 <= i < 20 ensures DeclaredOrderField(Conversions[i].0) {
      if i == 10 { assert OrderFieldsMiddle[17] == Conversions[10].0; }
      else if i == 11 { assert OrderFieldsMiddle[18] == Conversions[11].0; }
      else if i == 12 { assert OrderFieldsMiddle[19] == Conversions[12].0; }
      else if i == 13 { assert OrderFieldsTail[0] == Conversions[13].0; }
      else if i == 14 { assert OrderFieldsTail[6] == Conversions[14].0; }
      else if i == 15 { assert OrderFieldsTail[13] == Conversions[15].0; }
      else if i == 16 { assert OrderFieldsTail[15] == Conversions[16].0; }
      else if i == 17 { assert OrderFieldsTail[18] == Conversions[17].0; }
      else if i == 18 { assert OrderFieldsTail[19] == Conversions[18].0; }
      else { assert OrderFieldsTail[21] == Conversions[19].0; }
    }
  }

  /** What `Order(**v)` promises: it succeeds exactly when the keys are the
      declared fields and every reassigned field converts. */
  lemma OrderSpecMeaning(v: Value)
    ensures Binds(OrderFields, v) ==> NamesFrom(Conversions, 0) <= v.entries.Keys
    ensures OrderSpec(v).Ok? <==>
      Binds(OrderFields, v) &&
      forall i :: 0 <= i < |Conversions| ==> Convert(Conversions[i].1, v.entries[Conversions[i].0]).Ok?
  {
    ConversionsFacts();
    if Binds(OrderFields, v) {
      ApplyMeaning(Convert, v.entries, Conversions, 0);
    }
  }

  /** A constructed `Order` holds each converted record and every other
      field as given. */
  lemma OrderSpecAttributes(v: Value)
    requires OrderSpec(v).Ok?
    ensures forall i :: 0 <= i < |Conversions| ==> Conversions[i].0 in v.entries
    ensures forall i :: 0 <= i < |Conversions| ==> Convert(Conversions[i].1, v.entries[Conversions[i].0]).Ok?
    ensures NamesFrom(Conversions, 0) <= v.entries.Keys
    ensures var attrs := OrderSpec(v).value.attrs;
      attrs.Keys == v.entries.Keys == FieldSet(OrderFields) &&
      (forall i :: 0 <= i < |Conversions| ==>
        attrs[Conversions[i].0] == Convert(Conversions[i].1, v.entries[Conversions[i].0]).value) &&
      forall f :: f in attrs && f !in NamesFrom(Conversions, 0) ==> attrs[f] == v.entries[f]
  {
    ConversionsFacts();
    ApplyMeaning(Convert, v.entries, Conversions, 0);
    forall i | 0 <= i < |Conversions| ensures Conversions[i].0 in v.entries {
      assert Conversions[i].0 in NamesFrom(Conversions, 0);
    }
  }

  /** When the keys bind but `Order(**v)` raises, the first field, in
      source order, that fails to convert decides the exception. */
  lemma OrderSpecFailure(v: Value)
    requires Binds(OrderFields, v) && OrderSpec(v).Err?
    ensures NamesFrom(Conversions, 0) <= v.entries.Keys
    ensures exists i :: 0 <= i < |Conversions| &&
              Convert(Conversions[i].1, v.entries[Conversions[i].0]) == Err(OrderSpec(v).error) &&
              forall j :: 0 <= j < i ==> Convert(Conversions[j].1, v.entries[Conversions[j].0]).Ok?
  {
    ConversionsFacts();
    ApplyMeaning(Convert, v.entries, Conversions, 0);
  }

  /** The field `name` of an instance holds `cls(**given[name])`, and the
      value given for it has exactly the fields of `cls`. */
  predicate HoldsRecord(given: map<string, Value>, attrs: map<string, Value>, name: string,
                        cls: string, fields: seq<string>)
  {
    name in given && name in attrs &&
    Binds(fields, given[name]) && attrs[name] == Instance(cls, given[name].entries)
  }

  /** The `customer` field of an instance holds `Customer(**given["customer"])`. */
  predicate HoldsCustomer(given: map<string, Value>, attrs: map<string, Value>) {
    "customer" in given && "customer" in attrs &&
    CustomerSpec(given["customer"]).Ok? && attrs["customer"] == CustomerSpec(given["customer"]).value
  }

  /** Row `k` of the table in a constructed `Order`: the field holds what
      its conversion built from the value given for it. */
  lemma OrderRow(v: Value, k: nat)
    requires OrderSpec(v).Ok?
    requires k < |Conversions|
    ensures Conversions[k].0 in v.entries && Conversions[k].0 in OrderSpec(v).value.attrs
    ensures Convert(Conversions[k].1, v.entries[Conversions[k].0]).Ok?
    ensures OrderSpec(v).value.attrs[Conversions[k].0] ==
      Convert(Conversions[k].1, v.entries[Conversions[k].0]).value
  {
    OrderSpecAttributes(v);
    assert Conversions[k].0 in NamesFrom(Conversions, 0);
  }

  /** A field the table converts into a plain record: the value given for
      it has exactly the record's fields, and the field holds the record. */
  lemma OrderRecordField(v: Value, name: string, cls: string, fields: seq<string>)
    requires OrderSpec(v).Ok?
    requires (name, Record(cls, fields)) in Conversions
    ensures HoldsRecord(v.entries, OrderSpec(v).value.attrs, name, cls, fields)
  {
    var k :| 0 <= k < |Conversions| && Conversions[k] == (name, Record(cls, fields));
    OrderRow(v, k);
  }

  /** The customer of a constructed `Order` is built by `Customer(**...)`,
      post-initialisation of its own addresses included. */
  lemma OrderCustomer(v: Value)
    requires OrderSpec(v).Ok?
    ensures HoldsCustomer(v.entries, OrderSpec(v).value.attrs)
  {
    CustomerConverted();
    var k :| 0 <= k < |Conversions| && Conversions[k] == ("customer", NestedCustomer);
    OrderRow(v, k);
  }

  /** The table converts `customer` through `Customer(**...)`. */
  lemma CustomerConverted()
    ensures ("customer", NestedCustomer) in Conversions
  {
    assert Conversions[7] == ("customer", NestedCustomer);
  }

  /** Fields annotated with record types, or lists of them, that
      `__post_init__` never converts. */
  const UnconvertedOrderFields: seq<string> :=
    ["current_subtotal_price_set", "current_total_tax_set", "fulfillments", "line_items",
     "tax_lines", "discount_codes", "shipping_lines", "refunds"]

  lemma UnconvertedNotReassigned(f: string)
    requires f in UnconvertedOrderFields
    ensures f !in NamesFrom(Conversions, 0)
  {
    forall i | 0 <= i < |Conversions| ensures Conversions[i].0 != f {
    }
  }

  lemma UnconvertedDeclared()
    ensures forall f :: f in UnconvertedOrderFields ==> f in FieldSet(OrderFields)
  {
    assert OrderFieldsHead[21] == "current_subtotal_price_set";
    assert OrderFieldsHead[23] == "current_total_tax_set";
    assert OrderFieldsHead[27] == "discount_codes";
    assert OrderFieldsMiddle[3] == "fulfillments";
    assert OrderFieldsMiddle[8] == "line_items";
    assert OrderFieldsMiddle[27] == "refunds";
    assert OrderFieldsTail[1] == "shipping_lines";
    assert OrderFieldsTail[8] == "tax_lines";
  }

  /** A constructed `Order` keeps the value given for each of those fields,
      whatever its annotation says. */
  lemma OrderUnconvertedField(v: Value, f: string)
    requires OrderSpec(v).Ok?
    requires f in UnconvertedOrderFields
    ensures f in v.entries && f in OrderSpec(v).value.attrs
    ensures OrderSpec(v).value.attrs[f] == v.entries[f]
  {
    OrderSpecAttributes(v);
    UnconvertedNotReassigned(f);
    UnconvertedDeclared();
  }

  /** `Order(x)` with one positional argument, as the typed branch of
      `get_orders` calls it: `x` binds to `app_id` and the 82 other fields are
      missing, so the call always raises. */
  function OrderFromOneArg(x: Value): (r: Result<Value>)
    ensures r == Err(TypeError(BadConstructorCall("Order")))
  {
    CallOneArg("Order", OrderFields, x)
  }

  /** An `Order` instance: one attribute per declared field. */
  class Order {
    var attrs: map<string, Value>

    /** The generated `__init__`, once the keyword check has passed. */
    constructor (attrs: map<string, Value>)
      ensures this.attrs == attrs
    {
      this.attrs := attrs;
    }

    /** `self.<name> = Target(**self.<name>)`. */
    method Reassign(name: string, target: Target) returns (outcome: Outcome)
      requires name in attrs
      modifies this
      ensures outcome.Pass? <==> Convert(target, old(attrs)[name]).Ok?
      ensures outcome.Pass? ==> attrs == old(attrs)[name := Convert(target, old(attrs)[name]).value]
      ensures outcome.Fail? ==> outcome.error == Convert(target, old(attrs)[name]).error
      ensures outcome.Fail? ==> attrs == old(attrs)
    {
      var converted: Result<Value>;
      match target {
        case NestedCustomer =>
          var customer := NewCustomer(attrs[name]);
          converted := if customer.Ok? then Ok(Instance("Customer", customer.value.attrs)) else Err(customer.error);
        case Record(cls, fields) =>
          converted := Init(cls, fields, attrs[name]);
      }
      if converted.Err? {
        return Fail(converted.error);
      }
      attrs := attrs[name := converted.value];
      outcome := Pass;
    }

    /** Runs the reassignments a table describes, in order; the first one
        that raises ends the run. */
    method Reassignments(table: seq<(string, Target)>) returns (outcome: Outcome)
      requires NamesFrom(table, 0) <= attrs.Keys
      modifies this
      ensures outcome.Pass? <==> Apply(Convert, old(attrs), table, 0).Ok?
      ensures outcome.Pass? ==> attrs == Apply(Convert, old(attrs), table, 0).value
      ensures outcome.Fail? ==> outcome.error == Apply(Convert, old(attrs), table, 0).error
    {
      var k := 0;
      while k < |table|
        invariant 0 <= k <= |table|
        invariant NamesFrom(table, k) <= attrs.Keys
        invariant Apply(Convert, old(attrs), table, 0) == Apply(Convert, attrs, table, k)
      {
        ApplyStep(Convert, attrs, table, k);
        outcome := Reassign(table[k].0, table[k].1);
        if outcome.Fail? {
          return;
        }
        k := k + 1;
      }
      outcome := Pass;
    }

    /** `__post_init__`. Its twenty statements differ only in the field and
        the class, so they run as a walk over the conversion table, in
        source order. */
    method PostInit() returns (outcome: Outcome)
      requires NamesFrom(Conversions, 0) <= attrs.Keys
      modifies this
      ensures outcome.Pass? <==> Apply(Convert, old(attrs), Conversions, 0).Ok?
      ensures outcome.Pass? ==> attrs == Apply(Convert, old(attrs), Conversions, 0).value
      ensures outcome.Fail? ==> outcome.error == Apply(Convert, old(attrs), Conversions, 0).error
    {
      ConversionsFacts();
      outcome := Reassignments(Conversions);
    }
  }

  /** `Order(**v)`: the keyword check, a fresh instance, and its
      `__post_init__`. */
  method NewOrder(v: Value) returns (r: Result<Order>)
    ensures r.Ok? <==> OrderSpec(v).Ok?
    ensures r.Ok? ==> fresh(r.value) && Instance("Order", r.value.attrs) == OrderSpec(v).value
    ensures r.Err? ==> r.error == OrderSpec(v).error
  {
    var record := Init("Order", OrderFields, v);
    if record.Err? {
      return Err(record.error);
    }
    ConversionsFacts();
    var order := new Order(record.value.attrs);
    var outcome := order.PostInit();
    if outcome.Fail? {
      return Err(outcome.error);
    }
    return Ok(order);
  }
}
