/** The `Address` and `Customer` dataclasses. `Customer.__post_init__`
    replaces the default address and, in place, every entry of the
    `addresses` dict by an `Address` built from it. */
module CustomerModel {
  import opened Values
  import opened Dataclasses

  const AddressFields: seq<string> :=
    ["address1", "address2", "city", "company", "country", "first_name", "last_name",
     "phone", "province", "zip", "name", "province_code", "country_code", "latitude",
     "longitude"]

  const CustomerFields: seq<string> :=
    ["id", "email", "accepts_marketing", "created_at", "updated_at", "first_name",
     "last_name", "state", "note", "verified_email", "multipass_identifier", "tax_exempt",
     "tax_exemptions", "phone", "tags", "currency", "addresses", "admin_graphql_api_id",
     "default_address"]

  /** `Address(**v)`: all 15 declared keys are required, including those
      annotated `| None`, and no other key is accepted. */
  function NewAddress(v: Value): (r: Result<Value>)
    ensures r.Ok? <==> Binds(AddressFields, v)
    ensures r.Ok? ==> r.value == Instance("Address", v.entries)
    ensures r.Err? ==> r.error == TypeError(BadConstructorCall("Address"))
  {
    Init("Address", AddressFields, v)
  }

  /** True when every entry of the mapping `m` builds an `Address`. */
  predicate AllAddresses(m: map<string, Value>) {
    forall k :: k in m ==> NewAddress(m[k]).Ok?
  }

  /** The attributes `Customer.__post_init__` leaves behind, or the exception
      it raises: the default address is converted first, then `addresses`
      must be a dict and each of its values must build an `Address`. */
  function PostInitSpec(attrs: map<string, Value>): (r: Result<map<string, Value>>)
    requires "default_address" in attrs && "addresses" in attrs
    ensures r.Ok? ==> r.value.Keys == attrs.Keys
  {
    match NewAddress(attrs["default_address"])
    case Err(e) => Err(e)
    case Ok(default) =>
      match attrs["addresses"]
      case Dict(given) =>
        if AllAddresses(given) then
          var converted := map k | k in given :: NewAddress(given[k]).value;
          Ok(attrs["default_address" := default]["addresses" := Dict(converted)])
        else
          Err(TypeError(BadConstructorCall("Address")))
      case _ => Err(AttributeError(NoItemsMethod))
  }

  /** What the post-initialisation promises: it succeeds exactly when the
      default address converts, `addresses` is a dict and each of its values
      converts; it then leaves every other attribute alone and replaces each
      entry of `addresses` by its `Address`; otherwise the first failing step
      decides the exception. */
  lemma PostInitSpecMeaning(attrs: map<string, Value>)
    requires "default_address" in attrs && "addresses" in attrs
    ensures PostInitSpec(attrs).Ok? <==>
      NewAddress(attrs["default_address"]).Ok? &&
      attrs["addresses"].Dict? &&
      AllAddresses(attrs["addresses"].entries)
    ensures PostInitSpec(attrs).Ok? ==>
      var r := PostInitSpec(attrs).value;
      r["default_address"] == NewAddress(attrs["default_address"]).value &&
      (forall f :: f in attrs && f != "default_address" && f != "addresses" ==> r[f] == attrs[f])
    ensures PostInitSpec(attrs).Ok? ==>
      var r := PostInitSpec(attrs).value;
      var given := attrs["addresses"].entries;
      r["addresses"].Dict? &&
      r["addresses"].entries.Keys == given.Keys &&
      forall k :: k in given ==> r["addresses"].entries[k] == NewAddress(given[k]).value
    ensures NewAddress(attrs["default_address"]).Err? ==>
      PostInitSpec(attrs) == Err(TypeError(BadConstructorCall("Address")))
    ensures NewAddress(attrs["default_address"]).Ok? && !attrs["addresses"].Dict? ==>
      PostInitSpec(attrs) == Err(AttributeError(NoItemsMethod))
    ensures attrs["addresses"].Dict? && PostInitSpec(attrs).Err? ==>
      PostInitSpec(attrs).error == TypeError(BadConstructorCall("Address"))
  {
  }

  /** The post-initialisation fails once one entry of `addresses` does not
      build an `Address`, whichever entries the loop has converted before. */
  lemma PostInitRejects(attrs: map<string, Value>, k: string)
    requires "default_address" in attrs && "addresses" in attrs
    requires NewAddress(attrs["default_address"]).Ok? && attrs["addresses"].Dict?
    requires k in attrs["addresses"].entries && NewAddress(attrs["addresses"].entries[k]).Err?
    ensures PostInitSpec(attrs) == Err(TypeError(BadConstructorCall("Address")))
  {
  }

  /** Once every entry of `addresses` has been replaced by its `Address`,
      the attributes are those the post-initialisation promises. */
  lemma PostInitAccepts(attrs: map<string, Value>, entries: map<string, Value>)
    requires "default_address" in attrs && "addresses" in attrs
    requires NewAddress(attrs["default_address"]).Ok? && attrs["addresses"].Dict?
    requires entries.Keys == attrs["addresses"].entries.Keys
    requires forall k :: k in entries ==>
      NewAddress(attrs["addresses"].entries[k]).Ok? &&
      entries[k] == NewAddress(attrs["addresses"].entries[k]).value
    ensures PostInitSpec(attrs) ==
      Ok(attrs["default_address" := NewAddress(attrs["default_address"]).value]["addresses" := Dict(entries)])
  {
    var given := attrs["addresses"].entries;
    assert entries == map k | k in given :: NewAddress(given[k]).value;
  }

  /** `Customer(**v)`: the 19 declared keys, exactly, and then the
      post-initialisation above. */
  function CustomerSpec(v: Value): (r: Result<Value>)
    ensures r.Ok? ==> r.value.Instance? && r.value.cls == "Customer"
    ensures !Binds(CustomerFields, v) ==> r == Err(TypeError(BadConstructorCall("Customer")))
  {
    match Init("Customer", CustomerFields, v)
    case Err(e) => Err(e)
    case Ok(record) =>
      assert CustomerFields[16] == "addresses" && CustomerFields[18] == "default_address";
      match PostInitSpec(record.attrs)
      case Err(e) => Err(e)
      case Ok(attrs) => Ok(Instance("Customer", attrs))
  }

  /** What `Customer(**v)` promises: it succeeds exactly when the keys are
      the declared fields and the post-initialisation succeeds, and the
      instance then holds what the post-initialisation leaves. */
  lemma CustomerSpecMeaning(v: Value)
    ensures Binds(CustomerFields, v) ==>
      "default_address" in v.entries && "addresses" in v.entries
    ensures CustomerSpec(v).Ok? <==> Binds(CustomerFields, v) && PostInitSpec(v.entries).Ok?
    ensures CustomerSpec(v).Ok? ==>
      CustomerSpec(v).value.attrs.Keys == FieldSet(CustomerFields) &&
      CustomerSpec(v).value.attrs == PostInitSpec(v.entries).value
    ensures Binds(CustomerFields, v) && CustomerSpec(v).Err? ==>
      CustomerSpec(v).error == PostInitSpec(v.entries).error
  {
    assert CustomerFields[16] == "addresses" && CustomerFields[18] == "default_address";
  }

  /** `[Customer(**c) for c in xs]` on a decoded value: a list is mapped
      element by element; iterating a dict or a string yields strings, which
      `**` rejects, so only an empty one gives a list. */
  function CustomersFrom(xs: Value): (r: Result<seq<Value>>)
    ensures xs.List? ==>
      (r.Ok? <==> forall i :: 0 <= i < |xs.items| ==> CustomerSpec(xs.items[i]).Ok?)
    ensures xs.List? && r.Ok? ==>
      |r.value| == |xs.items| &&
      forall i :: 0 <= i < |xs.items| ==> r.value[i] == CustomerSpec(xs.items[i]).value
    ensures !xs.List? ==> (r.Ok? <==> IterationLength(xs) == Some(0)) && (r.Ok? ==> r.value == [])
    ensures IterationLength(xs).None? ==> r == Err(TypeError(NotIterable))
  {
    if xs.List? then MapAll(CustomerSpec, xs.items) else EachRejected("Customer", xs)
  }

  /** What justifies CustomersFrom's non-list case: `Customer(**s)` for a
      string `s` raises a TypeError. */
  lemma CustomerRejectsString(s: string)
    ensures CustomerSpec(Str(s)) == Err(TypeError(BadConstructorCall("Customer")))
  {
  }

  /** A `Customer` instance: one attribute per declared field. */
  class Customer {
    var attrs: map<string, Value>

    /** The generated `__init__`, once the keyword check has passed. */
    constructor (attrs: map<string, Value>)
      ensures this.attrs == attrs
    {
      this.attrs := attrs;
    }

    /** `__post_init__`: reassigns `default_address`, then walks the
        `addresses` dict and overwrites each entry with an `Address`. */
    method PostInit() returns (outcome: Outcome)
      requires "default_address" in attrs && "addresses" in attrs
      modifies this
      ensures outcome.Pass? <==> PostInitSpec(old(attrs)).Ok?
      ensures outcome.Pass? ==> attrs == PostInitSpec(old(attrs)).value
      ensures outcome.Fail? ==> outcome.error == PostInitSpec(old(attrs)).error
    {
      ghost var start := attrs;
      var default := NewAddress(attrs["default_address"]);
      if default.Err? {
        return Fail(default.error);
      }
      attrs := attrs["default_address" := default.value];
      if !attrs["addresses"].Dict? {
        return Fail(AttributeError(NoItemsMethod));
      }
      var given := attrs["addresses"].entries;
      // From here on the dict object `self.addresses` is viewed through its
      // entries, which the loop overwrites one by one.
      var entries := given;
      ghost var base := attrs;
      attrs := attrs["addresses" := Dict(entries)];
      var pending := entries.Keys;
      while pending != {}
        invariant pending <= entries.Keys == given.Keys
        invariant forall k :: k in pending ==> entries[k] == given[k]
        invariant forall k :: k in entries && k !in pending ==>
          NewAddress(given[k]).Ok? && entries[k] == NewAddress(given[k]).value
        invariant attrs == base["addresses" := Dict(entries)]
        decreases pending
      {
        var k :| k in pending;
        var address := NewAddress(entries[k]);
        if address.Err? {
          PostInitRejects(start, k);
          return Fail(address.error);
        }
        entries := entries[k := address.value];
        attrs := attrs["addresses" := Dict(entries)];
        pending := pending - {k};
      }
      PostInitAccepts(start, entries);
      outcome := Pass;
    }
  }

  /** `Customer(**v)`: the keyword check, a fresh instance, and its
      `__post_init__`. */
  method NewCustomer(v: Value) returns (r: Result<Customer>)
    ensures r.Ok? <==> CustomerSpec(v).Ok?
    ensures r.Ok? ==> fresh(r.value) && Instance("Customer", r.value.attrs) == CustomerSpec(v).value
    ensures r.Err? ==> r.error == CustomerSpec(v).error
  {
    var record := Init("Customer", CustomerFields, v);
    if record.Err? {
      return Err(record.error);
    }
    var customer := new Customer(record.value.attrs);
    var outcome := customer.PostInit();
    if outcome.Fail? {
      return Err(outcome.error);
    }
    return Ok(customer);
  }

  /** One element of the comprehension: a fresh instance, returned as the
      attributes it holds. */
  method BuildCustomer(c: Value) returns (r: Result<Value>)
    ensures r == CustomerSpec(c)
  {
    var customer := NewCustomer(c);
    if customer.Err? {
      return Err(customer.error);
    }
    return Ok(Instance("Customer", customer.value.attrs));
  }

  /** `[Customer(**c) for c in items]` over the elements of a list, stopping
      at the first element that fails. */
  method BuildCustomerList(items: seq<Value>) returns (r: Result<seq<Value>>)
    ensures r == MapAll(CustomerSpec, items)
  {
    var built: seq<Value> := [];
    var i := 0;
    while i < |items|
      invariant 0 <= i <= |items|
      invariant |built| == i
      invariant forall j :: 0 <= j < i ==> CustomerSpec(items[j]) == Ok(built[j])
    {
      var customer := BuildCustomer(items[i]);
      if customer.Err? {
        MapAllFirstFailure(CustomerSpec, items, i);
        return Err(customer.error);
      }
      built := built + [customer.value];
      i := i + 1;
    }
    MapAllBuilt(CustomerSpec, items, built);
    return Ok(built);
  }

  /** The typed branch of `get_customers` on the decoded envelope value. */
  method BuildCustomers(xs: Value) returns (r: Result<seq<Value>>)
    ensures r == CustomersFrom(xs)
  {
    if xs.List? {
      r := BuildCustomerList(xs.items);
    } else {
      r := EachRejected("Customer", xs);
    }
  }
}
