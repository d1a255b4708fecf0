/** The `Shopify` client: how each public operation turns its arguments into
    the one HTTP request it sends (or the exception it raises before sending
    anything), and how it shapes the decoded response body into its result.
    The network is a log of sent requests held by the HTTP client object; the
    decoded body the server answers with is a parameter of each operation. */
module ShopifyClient {
  import opened Values
  import opened Dataclasses
  import opened CustomerModel
  import opened FulfillmentModel
  import opened OrderModel
  import opened ProductModel

  /** `RequestType`, a string enum: each member is the HTTP verb it stands for. */
  datatype RequestType = Get | Create | Edit | Delete

  function Verb(t: RequestType): (verb: string)
    ensures verb != "" && RequestTypeOf(verb) == Some(t)
  {
    match t
    case Get => "get"
    case Create => "post"
    case Edit => "put"
    case Delete => "delete"
  }

  /** `RequestType(verb)`: the member whose value is `verb`, if any. */
  function RequestTypeOf(verb: string): Option<RequestType> {
    if verb == "get" then Some(Get)
    else if verb == "post" then Some(Create)
    else if verb == "put" then Some(Edit)
    else if verb == "delete" then Some(Delete)
    else None
  }

  /** The verbs and the members correspond one to one. */
  lemma VerbRoundTrip(t: RequestType, verb: string)
    ensures RequestTypeOf(Verb(t)) == Some(t)
    ensures RequestTypeOf(verb) == Some(t) <==> verb == Verb(t)
  {
  }

  /** `return_mode` as a caller passes it: a `ReturnMode` member, or any
      other value. */
  datatype ReturnModeArg = DictMember | ModelMember | OtherMode(v: Value)

  /** `return_mode == 1`. `ReturnMode` is a plain `Enum`, so neither of its
      members equals 1; only the int 1 (or `True`, which equals it) does. */
  predicate IsTyped(mode: ReturnModeArg): (typed: bool)
    ensures mode.DictMember? || mode.ModelMember? ==> !typed
    ensures mode.OtherMode? && mode.v.Int? ==> (typed <==> mode.v.n == 1)
    ensures mode.OtherMode? && mode.v.Bool? ==> (typed <==> mode.v.b)
    ensures typed ==> mode.OtherMode? && (mode.v.Int? || mode.v.Bool?)
  {
    mode == OtherMode(Int(1)) || mode == OtherMode(Bool(true))
  }

  /** A parameter with a default value: left out by the caller, or passed. */
  datatype Arg<T> = Omitted | Passed(value: T)

  /** The value a parameter declared with `default` takes. */
  function Given<T>(a: Arg<T>, default: T): T {
    if a.Passed? then a.value else default
  }

  /** `api_version="2023-07"` in `Shopify.__init__`. */
  const DefaultApiVersion: string := "2023-07"
  /** `limit=50` in each public read. */
  const DefaultLimit: int := 50
  const AccessTokenHeader: string := "X-Shopify-Access-Token"

  /** The admin API root for a store. */
  function BaseUrl(storeSlug: string, apiVersion: string): (url: string)
    ensures |url| == |storeSlug| + |apiVersion| + 33
    ensures url[..8] == "https://" && url[|url| - |apiVersion|..] == apiVersion
  {
    "https://" + storeSlug + ".myshopify.com/admin/api/" + apiVersion
  }

  /** The index of the first `sep` in `s`, or `|s|` when there is none. */
  function FirstIndex(s: string, sep: char): (i: nat)
    ensures i <= |s|
  {
    if s == [] then 0 else if s[0] == sep then 0 else 1 + FirstIndex(s[1..], sep)
  }

  lemma {:induction false} FirstIndexAfter(sep: char, a: string, b: string)
    requires sep !in a
    ensures FirstIndex(a + [sep] + b, sep) == |a|
  {
    if a != [] {
      assert (a + [sep] + b)[1..] == a[1..] + [sep] + b;
      FirstIndexAfter(sep, a[1..], b);
    }
  }

  /** If `a + [sep] + b == c + [sep] + d` and neither `a` nor `c` contains
      `sep`, the two splits are the same. */
  lemma SplitAtFirst(sep: char, a: string, b: string, c: string, d: string)
    requires sep !in a && sep !in c
    requires a + [sep] + b == c + [sep] + d
    ensures a == c && b == d
  {
    var s := a + [sep] + b;
    FirstIndexAfter(sep, a, b);
    FirstIndexAfter(sep, c, d);
    assert a == s[..|a|] == c;
    assert b == s[|a| + 1..] == d;
  }

  lemma BaseUrlShape(storeSlug: string, apiVersion: string)
    ensures BaseUrl(storeSlug, apiVersion) ==
      "https://" + (storeSlug + ['.'] + ("myshopify.com/admin/api/" + apiVersion))
  {
    assert ".myshopify.com/admin/api/" == ['.'] + "myshopify.com/admin/api/";
  }

  /** A store slug without a dot is recovered from the base URL, and so is
      the API version: two sessions with different slugs or versions never
      talk to the same root. */
  lemma BaseUrlDetermines(slug1: string, version1: string, slug2: string, version2: string)
    requires '.' !in slug1 && '.' !in slug2
    requires BaseUrl(slug1, version1) == BaseUrl(slug2, version2)
    ensures slug1 == slug2 && version1 == version2
  {
    var rest := "myshopify.com/admin/api/";
    var tail1, tail2 := slug1 + ['.'] + (rest + version1), slug2 + ['.'] + (rest + version2);
    BaseUrlShape(slug1, version1);
    BaseUrlShape(slug2, version2);
    assert tail1 == ("https://" + tail1)[8..];
    assert tail2 == ("https://" + tail2)[8..];
    SplitAtFirst('.', slug1, rest + version1, slug2, rest + version2);
    assert version1 == (rest + version1)[|rest|..];
    assert version2 == (rest + version2)[|rest|..];
  }

  /** What `_request` hands to the HTTP client, before the base URL is
      prefixed: the path, the verb, the query parameters and the JSON body
      (`Null` when there is none). */
  datatype Call = Call(path: string, verb: RequestType, params: map<string, Value>, body: Value)

  /** One request as the HTTP client sends it. */
  datatype SentRequest = SentRequest(verb: string, url: string, params: map<string, Value>, body: Value)

  /** The request `_request` sends for a call, under a base URL. */
  function Send(base: string, call: Call): SentRequest {
    SentRequest(Verb(call.verb), base + "/" + call.path, call.params, call.body)
  }

  /** The keyword arguments a call of `_request(path, verb, **kwargs)`
      already binds, so that a caller's dict giving one of them again raises. */
  predicate RebindsRequest(kwargs: map<string, Value>) {
    "self" in kwargs || "url_json_path" in kwargs || "method" in kwargs
  }

  /** `_request(path, t, **kwargs)`: a `json` keyword is the body, every
      other keyword is a query parameter. */
  function RequestCall(path: string, t: RequestType, kwargs: map<string, Value>): (r: Result<Call>)
    ensures r.Ok? <==> !RebindsRequest(kwargs)
    ensures r.Err? ==> r.error == TypeError(DuplicateArgument)
    ensures r.Ok? ==> r.value.path == path && r.value.verb == t
    ensures r.Ok? ==>
      r.value.params.Keys == kwargs.Keys - {"json"} &&
      forall k :: k in r.value.params ==> r.value.params[k] == kwargs[k]
    ensures r.Ok? ==> ("json" in kwargs ==> r.value.body == kwargs["json"]) &&
                      ("json" !in kwargs ==> r.value.body == Null)
  {
    if RebindsRequest(kwargs) then Err(TypeError(DuplicateArgument))
    else Ok(Call(path, t, kwargs - {"json"}, if "json" in kwargs then kwargs["json"] else Null))
  }

  /** The keyword arguments `self.__get_item(url_json_path=..., limit=...,
      **params)` binds besides those of `params`. */
  predicate RebindsGetItem(params: map<string, Value>) {
    "self" in params || "url_json_path" in params || "limit" in params
  }

  /** `__get_item(url_json_path=path, limit=limit, **params)`, where a None
      limit stands for the `None` that `get_products` passes. The ceiling
      is checked before anything is sent; there is no floor. */
  function GetItemCall(path: string, limit: Option<int>, params: map<string, Value>): (r: Result<Call>)
    ensures r.Ok? <==>
      !RebindsGetItem(params) && "method" !in params && limit.Some? && limit.value <= 250
    ensures r.Ok? ==>
      r.value.path == path && r.value.verb == Get &&
      r.value.params == (params - {"json"})["limit" := Int(limit.value)] &&
      r.value.body == (if "json" in params then params["json"] else Null)
    ensures RebindsGetItem(params) ==> r == Err(TypeError(DuplicateArgument))
    ensures !RebindsGetItem(params) && limit.None? ==> r == Err(TypeError(NotComparable))
    ensures !RebindsGetItem(params) && limit.Some? && limit.value > 250 ==>
      r == Err(AttributeError(MaxLimitExceeded))
  {
    if RebindsGetItem(params) then Err(TypeError(DuplicateArgument))
    else
      match limit
      case None => Err(TypeError(NotComparable))
      case Some(n) =>
        if n > 250 then Err(AttributeError(MaxLimitExceeded))
        else
          var kwargs := params["limit" := Int(n)];
          assert kwargs - {"json"} == (params - {"json"})["limit" := Int(n)];
          RequestCall(path, Get, kwargs)
  }

  /** The keyword arguments `self.__create_items(url_json_path=...,
      data=..., **params)` binds besides those of `params`. */
  predicate RebindsCreateItems(params: map<string, Value>) {
    "self" in params || "url_json_path" in params || "data" in params
  }

  /** `__create_items(url_json_path=path, data=data, **params)`: POSTs
      `data` as the body; `params` may not name one of its own keywords,
      nor `json`, which `data` is passed as. */
  function CreateItemsCall(path: string, data: Value, params: map<string, Value>): (r: Result<Call>)
    ensures r.Ok? <==> !RebindsCreateItems(params) && !RebindsRequest(params) && "json" !in params
    ensures r.Ok? ==> r.value == Call(path, Create, params, data)
    ensures r.Err? ==> r.error == TypeError(DuplicateArgument)
  {
    if RebindsCreateItems(params) || "json" in params then Err(TypeError(DuplicateArgument))
    else
      assert params["json" := data] - {"json"} == params;
      RequestCall(path, Create, params["json" := data])
  }

  /** `_delete_item(path, item_id=..., **params)`: the path it computes from
      `item_id` is never used, and neither are `params`. */
  function DeleteItemCall(path: string, itemId: Option<Id>, params: map<string, Value>): (c: Call)
    ensures RequestCall(path, Delete, map[]) == Ok(c)
  {
    Call(path, Delete, map[], Null)
  }

  /** `_edit_item(path, json, item_id=..., **params)`: as for deletion,
      `item_id` and `params` are ignored; `json` is the body. */
  function EditItemCall(path: string, json: Value, itemId: Option<Id>, params: map<string, Value>): (c: Call)
    ensures RequestCall(path, Edit, map["json" := json]) == Ok(c)
  {
    Call(path, Edit, map[], json)
  }

  /** Neither mutation helper depends on the item id or the extra
      parameters it is given. */
  lemma MutationIgnoresItemId(path: string, json: Value, id1: Option<Id>, p1: map<string, Value>,
                              id2: Option<Id>, p2: map<string, Value>)
    ensures DeleteItemCall(path, id1, p1) == DeleteItemCall(path, id2, p2)
    ensures EditItemCall(path, json, id1, p1) == EditItemCall(path, json, id2, p2)
    ensures DeleteItemCall(path, id1, p1).params == map[] && DeleteItemCall(path, id1, p1).body == Null
    ensures EditItemCall(path, json, id1, p1).params == map[]
  {
  }

  /** `<resource>.json` for the collection, `<resource>/<id>.json` for one
      item. */
  function ItemPath(resource: string, id: Option<Id>): (p: string)
    ensures |p| >= |resource| + 5 && p[..|resource|] == resource && p[|p| - 5..] == ".json"
    ensures id.None? <==> |p| == |resource| + 5
  {
    match id
    case None => resource + ".json"
    case Some(i) => resource + "/" + IdText(i) + ".json"
  }

  /** Reads the id segment back out of an item path. */
  function IdSegment(resource: string, path: string): Option<string> {
    var head := resource + "/";
    if |path| >= |head| + 5 && path[..|head|] == head && path[|path| - 5..] == ".json" then
      Some(path[|head|..|path| - 5])
    else
      None
  }

  /** An item path carries its id's text, which reads back; a collection
      path carries none. */
  lemma ItemPathRoundTrip(resource: string, id: Option<Id>)
    ensures id.Some? ==> IdSegment(resource, ItemPath(resource, id)) == Some(IdText(id.value))
    ensures id.None? ==> IdSegment(resource, ItemPath(resource, id)).None?
  {
    var p := ItemPath(resource, id);
    var head := resource + "/";
    if id.None? {
      assert |p| < |head| + 5;
    } else {
      var s := IdText(id.value);
      assert p == head + s + ".json";
      assert p[..|head|] == head;
      assert p[|p| - 5..] == ".json";
      assert p[|head|..|p| - 5] == s;
    }
  }

  /** Different integer ids never share an item path. */
  lemma IntIdPathsDistinct(resource: string, a: int, b: int)
    requires ItemPath(resource, Some(IntId(a))) == ItemPath(resource, Some(IntId(b)))
    ensures a == b
  {
    ItemPathRoundTrip(resource, Some(IntId(a)));
    ItemPathRoundTrip(resource, Some(IntId(b)));
    assert ParseDecimal(IdText(IntId(a))) == Some(a);
  }

  /** The path `edit_product` and `delete_product` build, spelt as in the
      code. */
  function ProductItemPath(productId: Id): string {
    "prodcuts/" + IdText(productId) + ".json"
  }

  /** Product edits and deletions never reach the product item path that a
      read of the same product uses. */
  lemma ProductItemPathMisspelt(productId: Id)
    ensures ProductItemPath(productId) != ItemPath("products", Some(productId))
    ensures IdSegment("products", ProductItemPath(productId)).None?
  {
    var p := ProductItemPath(productId);
    assert p[4] == 'c' by {
      assert p == "prodcuts/" + (IdText(productId) + ".json");
    }
    assert ItemPath("products", Some(productId))[4] == 'u';
    assert p[..9][4] == 'c';
  }



  /** What follows the order id in an order's fulfillment path. */
  function FulfillmentsTail(fulfillmentId: Option<Id>): string {
    if fulfillmentId.None? then "fulfillments.json"
    else "fulfillments/" + IdText(fulfillmentId.value) + ".json"
  }

  /** The path `get_fulfillments` builds: an order's fulfillments, one
      fulfillment of an order, or all of them; a fulfillment id without an
      order id raises before any request. */
  function FulfillmentPath(fulfillmentId: Option<Id>, orderId: Option<Id>): (r: Result<string>)
    ensures r.Err? <==> fulfillmentId.Some? && orderId.None?
    ensures fulfillmentId.None? && orderId.None? ==> r == Ok("fulfillments.json")
    ensures r.Err? ==> r.error == AttributeError(OrderIdRequired)
  {
    match orderId
    case None =>
      if fulfillmentId.None? then Ok("fulfillments.json") else Err(AttributeError(OrderIdRequired))
    case Some(o) => Ok("orders/" + (IdText(o) + "/" + FulfillmentsTail(fulfillmentId)))
  }

  /** An optional id whose text has no slash. */
  predicate Plain(id: Option<Id>) {
    id.Some? ==> '/' !in IdText(id.value)
  }

  /** The text of an optional id, compared as a path segment. */
  predicate SameText(a: Option<Id>, b: Option<Id>) {
    a.Some? == b.Some? && (a.Some? ==> IdText(a.value) == IdText(b.value))
  }

  lemma FulfillmentsTailShape(fulfillmentId: Option<Id>)
    ensures |FulfillmentsTail(fulfillmentId)| > 12
    ensures FulfillmentsTail(fulfillmentId)[12] == '/' <==> fulfillmentId.Some?
    ensures fulfillmentId.Some? ==>
      FulfillmentsTail(fulfillmentId) == "fulfillments" + ['/'] + (IdText(fulfillmentId.value) + ".json")
  {
  }

  lemma FulfillmentPathShape(fulfillmentId: Option<Id>, orderId: Option<Id>)
    requires FulfillmentPath(fulfillmentId, orderId).Ok?
    ensures var p := FulfillmentPath(fulfillmentId, orderId).value;
      |p| > 0 && (p[0] == 'o' <==> orderId.Some?)
    ensures orderId.Some? ==>
      FulfillmentPath(fulfillmentId, orderId).value ==
        "orders" + ['/'] + (IdText(orderId.value) + ['/'] + FulfillmentsTail(fulfillmentId))
  {
    assert "orders/" == "orders" + ['/'];
  }

  /** The fulfillment path tells the three request shapes apart and carries
      both ids: for ids without a slash, equal paths mean equal ids (as
      text). */
  lemma FulfillmentPathDetermines(f1: Option<Id>, o1: Option<Id>, f2: Option<Id>, o2: Option<Id>)
    requires Plain(f1) && Plain(o1) && Plain(f2) && Plain(o2)
    requires FulfillmentPath(f1, o1).Ok? && FulfillmentPath(f1, o1) == FulfillmentPath(f2, o2)
    ensures SameText(f1, f2) && SameText(o1, o2)
  {
    FulfillmentPathShape(f1, o1);
    FulfillmentPathShape(f2, o2);
    if o1.Some? {
      var t1, t2 := IdText(o1.value), IdText(o2.value);
      SplitAtFirst('/', "orders", t1 + ['/'] + FulfillmentsTail(f1), "orders", t2 + ['/'] + FulfillmentsTail(f2));
      SplitAtFirst('/', t1, FulfillmentsTail(f1), t2, FulfillmentsTail(f2));
      FulfillmentsTailShape(f1);
      FulfillmentsTailShape(f2);
      if f1.Some? {
        var s1, s2 := IdText(f1.value), IdText(f2.value);
        SplitAtFirst('/', "fulfillments", s1 + ".json", "fulfillments", s2 + ".json");
        assert s1 == (s1 + ".json")[..|s1|];
        assert s2 == (s2 + ".json")[..|s2|];
      }
    }
  }

  /** `get_orders`: the orders collection, or one order. */
  function OrdersCall(orderId: Option<Id>, limit: Option<int>, params: map<string, Value>): (r: Result<Call>)
    ensures r.Ok? <==>
      !RebindsGetItem(params) && "method" !in params && limit.Some? && limit.value <= 250
    ensures r.Ok? ==>
      r.value.path == ItemPath("orders", orderId) && r.value.verb == Get &&
      "limit" in r.value.params && r.value.params["limit"] == Int(limit.value)
  {
    GetItemCall(ItemPath("orders", orderId), limit, params)
  }

  /** `get_products`: whatever its arguments, it overwrites `limit` with
      None, and `None > 250` raises before the request is built. */
  function ProductsCall(productId: Option<Id>, limit: Option<int>, params: map<string, Value>): (r: Result<Call>)
    ensures r == Err(TypeError(NotComparable))
  {
    GetItemCall(ItemPath("products", productId), None, map[])
  }

  /** `get_customers`: the customers collection, or one customer. */
  function CustomersCall(customerId: Option<Id>, limit: Option<int>, params: map<string, Value>): (r: Result<Call>)
    ensures r.Ok? <==>
      !RebindsGetItem(params) && "method" !in params && limit.Some? && limit.value <= 250
    ensures r.Ok? ==>
      r.value.path == ItemPath("customers", customerId) && r.value.verb == Get &&
      "limit" in r.value.params && r.value.params["limit"] == Int(limit.value)
  {
    GetItemCall(ItemPath("customers", customerId), limit, params)
  }

  /** `get_webhooks`: its `limit` argument is never used; 50 is sent
      instead, so the ceiling can never be exceeded. */
  function WebhooksCall(webhookId: Option<Id>, limit: Option<int>, params: map<string, Value>): (r: Result<Call>)
    ensures r.Ok? <==> !RebindsGetItem(params) && "method" !in params
    ensures r.Ok? ==> r.value.path == ItemPath("webhooks", webhookId) && r.value.verb == Get
    ensures r.Ok? ==> "limit" in r.value.params && r.value.params["limit"] == Int(50)
    ensures r.Err? ==> r.error == TypeError(DuplicateArgument)
  {
    GetItemCall(ItemPath("webhooks", webhookId), Some(50), params)
  }

  /** A read that leaves `limit` out sends 50, under the ceiling: it fails
      only on a repeated keyword. */
  lemma DefaultLimitAccepted(path: string, params: map<string, Value>)
    ensures var r := GetItemCall(path, Given(Omitted, Some(DefaultLimit)), params);
      (r.Ok? <==> !RebindsGetItem(params) && "method" !in params) &&
      (r.Ok? ==> r.value.params["limit"] == Int(50)) &&
      (r.Err? ==> r.error == TypeError(DuplicateArgument))
  {
  }

  /** `get_fulfillments`: the path is chosen (or the missing order id
      raised) first, then the generic read runs with the `params` dict. */
  function FulfillmentsCall(fulfillmentId: Option<Id>, orderId: Option<Id>, limit: Option<int>,
                            params: map<string, Value>): (r: Result<Call>)
    ensures fulfillmentId.Some? && orderId.None? ==> r == Err(AttributeError(OrderIdRequired))
    ensures r.Ok? ==> FulfillmentPath(fulfillmentId, orderId) == Ok(r.value.path)
  {
    match FulfillmentPath(fulfillmentId, orderId)
    case Err(e) => Err(e)
    case Ok(path) => GetItemCall(path, limit, params)
  }

  /** `create_product(data)`: POSTs `data` to `products.json`; nothing can
      make it fail before sending. */
  function CreateProductCall(data: Value): (r: Result<Call>)
    ensures r == Ok(Call("products.json", Create, map[], data))
  {
    CreateItemsCall("products.json", data, map[])
  }

  /** `edit_product(product_id, data)`. */
  function EditProductCall(productId: Id, data: Value): (c: Call)
    ensures c.path == ProductItemPath(productId) && c.verb == Edit
    ensures c.body == data && c.params == map[]
  {
    EditItemCall(ProductItemPath(productId), data, None, map[])
  }

  /** `delete_product(product_id)`. */
  function DeleteProductCall(productId: Id): (c: Call)
    ensures c.path == ProductItemPath(productId) && c.verb == Delete
    ensures c.body == Null && c.params == map[]
  {
    DeleteItemCall(ProductItemPath(productId), None, map[])
  }

  /** The result of an operation whose request step gave `call`: the
      exception raised before sending, or the shaped response. */
  function AfterCall(call: Result<Call>, response: Result<Value>): Result<Value> {
    if call.Err? then Err(call.error) else response
  }

  /** The parameters `BaseModel.__init__` takes after `self`. */
  const BaseModelParams: seq<string> := ["data"]

  /** `BaseModel.__init__(self, *args)` for an instance of `cls`: one
      argument is stored in the name-mangled `__data` attribute; any other
      number of arguments is a TypeError. */
  function BaseModelInit(cls: string, args: seq<Value>): (r: Result<Value>)
    ensures r.Ok? <==> |args| == |BaseModelParams|
    ensures r.Ok? ==> r.value == Instance(cls, map["_BaseModel__data" := args[0]])
    ensures r.Err? ==> r.error == TypeError(BadConstructorCall(cls))
  {
    if |args| == |BaseModelParams| then Ok(Instance(cls, map["_BaseModel__data" := args[0]]))
    else Err(TypeError(BadConstructorCall(cls)))
  }

  /** `Webhook(*args)`: its own `__init__` takes one argument `data` and
      hands the base constructor two, `data` and the string `"topic"`, so no
      call builds a webhook. */
  function WebhookInit(args: seq<Value>): (r: Result<Value>)
    ensures r == Err(TypeError(BadConstructorCall("Webhook")))
  {
    if |args| != 1 then Err(TypeError(BadConstructorCall("Webhook")))
    else BaseModelInit("Webhook", [args[0], Str("topic")])
  }

  /** `Webhook(w)`, as the typed branch of `get_webhooks` calls it: the
      call raises whatever `w` is. */
  function WebhookFromOneArg(w: Value): (r: Result<Value>)
    ensures r == Err(TypeError(BadConstructorCall("Webhook")))
  {
    WebhookInit([w])
  }

  /** `[cls(...) for x in xs]` as a list value, or the first exception. */
  function AsList(built: Result<seq<Value>>): Result<Value> {
    match built
    case Err(e) => Err(e)
    case Ok(items) => Ok(List(items))
  }

  /** The shaped result of `get_orders`: the raw `"orders"` entry, or, in
      mode 1, `Order(o)` for each element of the `"Orders"` entry, which
      never builds an order. */
  function OrdersResponse(mode: ReturnModeArg, reply: Value): (r: Result<Value>)
    ensures !IsTyped(mode) ==>
      (r.Ok? <==> reply.Dict? && "orders" in reply.entries) &&
      (r.Ok? ==> r.value == reply.entries["orders"])
    ensures IsTyped(mode) ==>
      (r.Ok? <==> reply.Dict? && "Orders" in reply.entries &&
                  IterationLength(reply.entries["Orders"]) == Some(0)) &&
      (r.Ok? ==> r.value == List([]))
  {
    if IsTyped(mode) then
      match Subscript(reply, "Orders")
      case Err(e) => Err(e)
      case Ok(orders) => AsList(EachRejected("Order", orders))
    else
      Subscript(reply, "orders")
  }

  /** In mode 1 the `"Orders"` list is shaped by calling `Order(o)` on each
      element, which is the comprehension of shopify.py. */
  lemma OrdersResponseCallsOrder(mode: ReturnModeArg, reply: Value)
    requires IsTyped(mode) && reply.Dict? && "Orders" in reply.entries
    requires reply.entries["Orders"].List?
    ensures OrdersResponse(mode, reply) ==
      AsList(MapAll(OrderFromOneArg, reply.entries["Orders"].items))
  {
    EachRejectedIsMapAll("Order", OrderFromOneArg, reply.entries["Orders"]);
  }

  /** The shaped result of `get_products`, were it ever reached: the raw
      `"products"` entry, or `Product(**p)` for each of its elements. */
  function ProductsResponse(mode: ReturnModeArg, reply: Value): (r: Result<Value>)
    ensures r.Ok? ==> reply.Dict? && "products" in reply.entries
    ensures !IsTyped(mode) && r.Ok? ==> r.value == reply.entries["products"]
    ensures IsTyped(mode) && r.Ok? && reply.entries["products"].List? ==>
      var given := reply.entries["products"].items;
      r.value.List? && |r.value.items| == |given| &&
      forall i :: 0 <= i < |given| ==> NewProduct(given[i]) == Ok(r.value.items[i])
  {
    match Subscript(reply, "products")
    case Err(e) => Err(e)
    case Ok(products) =>
      if !IsTyped(mode) then Ok(products)
      else if products.List? then AsList(MapAll(NewProduct, products.items))
      else AsList(EachRejected("Product", products))
  }

  /** The shaped result of `get_customers`: the raw `"customers"` entry, or
      `Customer(**c)` for each of its elements. */
  function CustomersResponse(mode: ReturnModeArg, reply: Value): (r: Result<Value>)
    ensures r.Ok? ==> reply.Dict? && "customers" in reply.entries
    ensures !IsTyped(mode) ==>
      (r.Ok? <==> reply.Dict? && "customers" in reply.entries) &&
      (r.Ok? ==> r.value == reply.entries["customers"])
    ensures IsTyped(mode) && r.Ok? && reply.entries["customers"].List? ==>
      var given := reply.entries["customers"].items;
      r.value.List? && |r.value.items| == |given| &&
      forall i :: 0 <= i < |given| ==> CustomerSpec(given[i]) == Ok(r.value.items[i])
  {
    match Subscript(reply, "customers")
    case Err(e) => Err(e)
    case Ok(customers) =>
      if IsTyped(mode) then AsList(CustomersFrom(customers)) else Ok(customers)
  }

  /** The envelope key `get_webhooks` reads. */
  function WebhooksKey(webhookId: Option<Id>): (key: string)
    ensures key == "webhook" || key == "webhooks"
    ensures key == "webhook" <==> webhookId.Some?
  {
    if webhookId.None? then "webhooks" else "webhook"
  }

  /** The shaped result of `get_webhooks`: the raw entry, or in mode 1 a
      `Webhook` per element (or for the one webhook), which never builds. */
  function WebhooksResponse(mode: ReturnModeArg, webhookId: Option<Id>, reply: Value): (r: Result<Value>)
    ensures r.Ok? ==> reply.Dict? && WebhooksKey(webhookId) in reply.entries
    ensures !IsTyped(mode) ==>
      (r.Ok? <==> reply.Dict? && WebhooksKey(webhookId) in reply.entries) &&
      (r.Ok? ==> r.value == reply.entries[WebhooksKey(webhookId)])
    ensures IsTyped(mode) && webhookId.Some? ==> r.Err?
    ensures IsTyped(mode) && r.Ok? ==> r.value == List([])
  {
    match Subscript(reply, WebhooksKey(webhookId))
    case Err(e) => Err(e)
    case Ok(data) =>
      if !IsTyped(mode) then Ok(data)
      else if webhookId.None? then AsList(EachRejected("Webhook", data))
      else WebhookFromOneArg(data)
  }

  /** In mode 1 with no id the webhook list is shaped by calling
      `Webhook(w)` on each element, which is the comprehension of
      shopify.py. */
  lemma WebhooksResponseCallsWebhook(mode: ReturnModeArg, reply: Value)
    requires IsTyped(mode) && reply.Dict? && "webhooks" in reply.entries
    requires reply.entries["webhooks"].List?
    ensures WebhooksResponse(mode, None, reply) ==
      AsList(MapAll(WebhookFromOneArg, reply.entries["webhooks"].items))
  {
    EachRejectedIsMapAll("Webhook", WebhookFromOneArg, reply.entries["webhooks"]);
  }

  /** The envelope key `get_fulfillments` reads: in mode 1 the singular key
      when the fulfillment id is truthy; otherwise the singular key when it
      is None. */
  function FulfillmentsKey(typed: bool, fulfillmentId: Option<Id>): (key: string)
    ensures key == "fulfillment" || key == "fulfillments"
    ensures !typed ==> (key == "fulfillment" <==> fulfillmentId.None?)
    ensures typed ==> (key == "fulfillment" <==> Truthy(fulfillmentId))
  {
    if typed then (if Truthy(fulfillmentId) then "fulfillment" else "fulfillments")
    else (if fulfillmentId.None? then "fulfillment" else "fulfillments")
  }

  /** The two modes read the same key only for an id that is given but
      falsy (0 or the empty string); for None and for every other id they
      read opposite keys. */
  lemma FulfillmentsKeysDisagree(fulfillmentId: Option<Id>)
    ensures FulfillmentsKey(true, fulfillmentId) == FulfillmentsKey(false, fulfillmentId) <==>
      fulfillmentId == Some(IntId(0)) || fulfillmentId == Some(StrId(""))
  {
  }

  /** The shaped result of `get_fulfillments`: the raw entry, or in mode 1
      `Fulfillment(...)` of the one fulfillment or of each element, which
      never builds. */
  function FulfillmentsResponse(mode: ReturnModeArg, fulfillmentId: Option<Id>, reply: Value): (r: Result<Value>)
    ensures r.Ok? ==> reply.Dict? && FulfillmentsKey(IsTyped(mode), fulfillmentId) in reply.entries
    ensures !IsTyped(mode) ==>
      var key := FulfillmentsKey(false, fulfillmentId);
      (r.Ok? <==> reply.Dict? && key in reply.entries) &&
      (r.Ok? ==> r.value == reply.entries[key])
    ensures IsTyped(mode) && Truthy(fulfillmentId) ==> r.Err?
    ensures IsTyped(mode) && r.Ok? ==> r.value == List([])
  {
    var typed := IsTyped(mode);
    match Subscript(reply, FulfillmentsKey(typed, fulfillmentId))
    case Err(e) => Err(e)
    case Ok(data) =>
      if !typed then Ok(data)
      else if Truthy(fulfillmentId) then FulfillmentFromOneArg(data)
      else AsList(EachRejected("Fulfillment", data))
  }

  /** In mode 1 with a falsy id the fulfillment list is shaped by calling
      `Fulfillment(f)` on each element, which is the comprehension of
      shopify.py. */
  lemma FulfillmentsResponseCallsFulfillment(mode: ReturnModeArg, fulfillmentId: Option<Id>, reply: Value)
    requires IsTyped(mode) && !Truthy(fulfillmentId)
    requires reply.Dict? && "fulfillments" in reply.entries
    requires reply.entries["fulfillments"].List?
    ensures FulfillmentsResponse(mode, fulfillmentId, reply) ==
      AsList(MapAll(FulfillmentFromOneArg, reply.entries["fulfillments"].items))
  {
    EachRejectedIsMapAll("Fulfillment", FulfillmentFromOneArg, reply.entries["fulfillments"]);
  }

  /** The shaping step of `get_customers`: the `"customers"` entry, or in
      mode 1 a `Customer` built from each of its elements. */
  method ShapeCustomers(mode: ReturnModeArg, reply: Value) returns (r: Result<Value>)
    ensures r == CustomersResponse(mode, reply)
  {
    var customers := Subscript(reply, "customers");
    if customers.Err? {
      return Err(customers.error);
    }
    if IsTyped(mode) {
      var built := BuildCustomers(customers.value);
      r := AsList(built);
    } else {
      r := Ok(customers.value);
    }
  }

  /** The HTTP client: the headers it was created with and the requests
      sent through it, oldest first. */
  class AsyncClient {
    const headers: map<string, string>
    var sent: seq<SentRequest>

    constructor (headers: map<string, string>)
      ensures this.headers == headers && sent == []
    {
      this.headers := headers;
      sent := [];
    }

    /** `request(method, url, json=..., params=...)`: the request goes out. */
    method Request(verb: string, url: string, body: Value, params: map<string, Value>)
      modifies this
      ensures sent == old(sent) + [SentRequest(verb, url, params, body)]
    {
      sent := sent + [SentRequest(verb, url, params, body)];
    }
  }

  /** A session with one store's admin API. */
  class Shopify {
    const url: string
    const headers: map<string, string>
    var client: AsyncClient?

    /** The client, once created, carries the session's headers. */
    predicate Valid()
      reads this, client
    {
      client != null ==> client.headers == headers
    }

    /** Every request this session has sent, oldest first. */
    function Log(): seq<SentRequest>
      reads this, client
    {
      if client == null then [] else client.sent
    }

    /** Sending `call` (when it is a request) appended exactly one request
        to the log and kept the client, or created a new one on first use;
        an exception left everything as it was. */
    twostate predicate Dispatched(call: Result<Call>)
      reads this, client
    {
      match call
      case Ok(c) =>
        Log() == old(Log()) + [Send(url, c)] &&
        (old(client) != null ==> client == old(client)) &&
        (old(client) == null ==> fresh(client))
      case Err(_) => Log() == old(Log()) && client == old(client)
    }

    /** `Shopify(store_slug, admin_key=..., api_version=...)` once the key
        is known not to be None. */
    constructor (storeSlug: string, adminKey: string, apiVersion: string)
      ensures url == BaseUrl(storeSlug, apiVersion)
      ensures headers == map[AccessTokenHeader := adminKey]
      ensures client == null && Valid() && Log() == []
    {
      url := BaseUrl(storeSlug, apiVersion);
      headers := map[AccessTokenHeader := adminKey];
      client := null;
    }

    /** The `client` property: created with the session's headers on first
        use, the same object on every later use. */
    method Client() returns (c: AsyncClient)
      requires Valid()
      modifies this
      ensures Valid() && client == c
      ensures old(client) != null ==> c == old(client)
      ensures old(client) == null ==> fresh(c) && c.headers == headers && c.sent == []
      ensures Log() == old(Log())
    {
      if client == null {
        client := new AsyncClient(headers);
      }
      c := client;
    }

    /** `_request(path, t, **kwargs)`. */
    method Request(path: string, t: RequestType, kwargs: map<string, Value>) returns (outcome: Outcome)
      requires Valid()
      modifies this, client
      ensures Valid() && Dispatched(RequestCall(path, t, kwargs))
      ensures outcome.Pass? <==> RequestCall(path, t, kwargs).Ok?
      ensures outcome.Fail? ==> outcome.error == RequestCall(path, t, kwargs).error
    {
      if RebindsRequest(kwargs) {
        return Fail(TypeError(DuplicateArgument));
      }
      var body := if "json" in kwargs then kwargs["json"] else Null;
      var params := kwargs - {"json"};
      var target := url + "/" + path;
      var c := Client();
      c.Request(Verb(t), target, body, params);
      outcome := Pass;
    }

    /** `__get_item(url_json_path=path, limit=limit, **params)`. */
    method GetItem(path: string, limit: Option<int>, params: map<string, Value>) returns (outcome: Outcome)
      requires Valid()
      modifies this, client
      ensures Valid() && Dispatched(GetItemCall(path, limit, params))
      ensures outcome.Pass? <==> GetItemCall(path, limit, params).Ok?
      ensures outcome.Fail? ==> outcome.error == GetItemCall(path, limit, params).error
    {
      if RebindsGetItem(params) {
        return Fail(TypeError(DuplicateArgument));
      }
      if limit.None? {
        return Fail(TypeError(NotComparable));
      }
      if limit.value > 250 {
        return Fail(AttributeError(MaxLimitExceeded));
      }
      outcome := Request(path, Get, params["limit" := Int(limit.value)]);
    }

    /** `__create_items(url_json_path=path, data=data, **params)`. */
    method CreateItems(path: string, data: Value, params: map<string, Value>) returns (outcome: Outcome)
      requires Valid()
      modifies this, client
      ensures Valid() && Dispatched(CreateItemsCall(path, data, params))
      ensures outcome.Pass? <==> CreateItemsCall(path, data, params).Ok?
      ensures outcome.Fail? ==> outcome.error == CreateItemsCall(path, data, params).error
    {
      if RebindsCreateItems(params) || "json" in params {
        return Fail(TypeError(DuplicateArgument));
      }
      outcome := Request(path, Create, params["json" := data]);
    }

    /** `_delete_item(path, item_id=..., **params)`. */
    method DeleteItem(path: string, itemId: Option<Id>, params: map<string, Value>)
      requires Valid()
      modifies this, client
      ensures Valid() && Dispatched(Ok(DeleteItemCall(path, itemId, params)))
    {
      var outcome := Request(path, Delete, map[]);
    }

    /** `_edit_item(path, json, item_id=..., **params)`. */
    method EditItem(path: string, json: Value, itemId: Option<Id>, params: map<string, Value>)
      requires Valid()
      modifies this, client
      ensures Valid() && Dispatched(Ok(EditItemCall(path, json, itemId, params)))
    {
      var outcome := Request(path, Edit, map["json" := json]);
    }

    /** `get_orders(limit, order_id=..., return_mode=..., **params)`, the
        server answering with `reply`. */
    method GetOrders(limit: Arg<Option<int>>, orderId: Option<Id>, mode: ReturnModeArg,
                     params: map<string, Value>, reply: Value) returns (r: Result<Value>)
      requires Valid()
      modifies this, client
      ensures Valid() && Dispatched(OrdersCall(orderId, Given(limit, Some(DefaultLimit)), params))
      ensures r == AfterCall(OrdersCall(orderId, Given(limit, Some(DefaultLimit)), params),
                             OrdersResponse(mode, reply))
    {
      var outcome := GetItem(ItemPath("orders", orderId), Given(limit, Some(DefaultLimit)), params);
      if outcome.Fail? {
        return Err(outcome.error);
      }
      r := OrdersResponse(mode, reply);
    }

    /** `get_products(limit, return_mode=..., product_id=..., **params)`. */
    method GetProducts(limit: Arg<Option<int>>, productId: Option<Id>, mode: ReturnModeArg,
                       params: map<string, Value>, reply: Value) returns (r: Result<Value>)
      requires Valid()
      modifies this, client
      ensures Valid() && Dispatched(ProductsCall(productId, Given(limit, Some(DefaultLimit)), params))
      ensures r == AfterCall(ProductsCall(productId, Given(limit, Some(DefaultLimit)), params),
                             ProductsResponse(mode, reply))
    {
      var outcome := GetItem(ItemPath("products", productId), None, map[]);
      if outcome.Fail? {
        return Err(outcome.error);
      }
      r := ProductsResponse(mode, reply);
    }

    /** `create_product(data)`, the server answering with `reply`. */
    method CreateProduct(data: Value, reply: Value) returns (r: Result<Value>)
      requires Valid()
      modifies this, client
      ensures Valid() && Dispatched(CreateProductCall(data))
      ensures r == Ok(reply)
    {
      var outcome := CreateItems("products.json", data, map[]);
      if outcome.Fail? {
        return Err(outcome.error);
      }
      r := Ok(reply);
    }

    /** `edit_product(product_id, data)`, the server answering with `reply`. */
    method EditProduct(productId: Id, data: Value, reply: Value) returns (r: Value)
      requires Valid()
      modifies this, client
      ensures Valid() && Dispatched(Ok(EditProductCall(productId, data)))
      ensures r == reply
    {
      EditItem(ProductItemPath(productId), data, None, map[]);
      r := reply;
    }

    /** `delete_product(product_id)`, the server answering with `reply`. */
    method DeleteProduct(productId: Id, reply: Value) returns (r: Value)
      requires Valid()
      modifies this, client
      ensures Valid() && Dispatched(Ok(DeleteProductCall(productId)))
      ensures r == reply
    {
      DeleteItem(ProductItemPath(productId), None, map[]);
      r := reply;
    }

    /** `get_customers(limit, return_mode=..., customer_id=..., **params)`,
        the server answering with `reply`. */
    method GetCustomers(limit: Arg<Option<int>>, customerId: Option<Id>, mode: ReturnModeArg,
                        params: map<string, Value>, reply: Value) returns (r: Result<Value>)
      requires Valid()
      modifies this, client
      ensures Valid() && Dispatched(CustomersCall(customerId, Given(limit, Some(DefaultLimit)), params))
      ensures r == AfterCall(CustomersCall(customerId, Given(limit, Some(DefaultLimit)), params),
                             CustomersResponse(mode, reply))
    {
      var outcome := GetItem(ItemPath("customers", customerId), Given(limit, Some(DefaultLimit)), params);
      if outcome.Fail? {
        return Err(outcome.error);
      }
      r := ShapeCustomers(mode, reply);
    }

    /** `get_webhooks(limit, webhook_id=..., return_mode=..., **params)`,
        the server answering with `reply`. */
    method GetWebhooks(limit: Arg<Option<int>>, webhookId: Option<Id>, mode: ReturnModeArg,
                       params: map<string, Value>, reply: Value) returns (r: Result<Value>)
      requires Valid()
      modifies this, client
      ensures Valid() && Dispatched(WebhooksCall(webhookId, Given(limit, Some(DefaultLimit)), params))
      ensures r == AfterCall(WebhooksCall(webhookId, Given(limit, Some(DefaultLimit)), params),
                             WebhooksResponse(mode, webhookId, reply))
    {
      var outcome := GetItem(ItemPath("webhooks", webhookId), Some(50), params);
      if outcome.Fail? {
        return Err(outcome.error);
      }
      r := WebhooksResponse(mode, webhookId, reply);
    }

    /** `get_fulfillments(limit, fullfilment_id=..., return_mode=...,
        params=..., order_id=...)`, the server answering with `reply`. */
    method GetFulfillments(limit: Arg<Option<int>>, fulfillmentId: Option<Id>, mode: ReturnModeArg,
                           params: map<string, Value>, orderId: Option<Id>, reply: Value)
      returns (r: Result<Value>)
      requires Valid()
      modifies this, client
      ensures Valid() &&
        Dispatched(FulfillmentsCall(fulfillmentId, orderId, Given(limit, Some(DefaultLimit)), params))
      ensures r == AfterCall(FulfillmentsCall(fulfillmentId, orderId, Given(limit, Some(DefaultLimit)), params),
                             FulfillmentsResponse(mode, fulfillmentId, reply))
    {
      var path := FulfillmentPath(fulfillmentId, orderId);
      if path.Err? {
        return Err(path.error);
      }
      var outcome := GetItem(path.value, Given(limit, Some(DefaultLimit)), params);
      if outcome.Fail? {
        return Err(outcome.error);
      }
      r := FulfillmentsResponse(mode, fulfillmentId, reply);
    }
  }

  /** `Shopify(store_slug, admin_key=..., api_version=...)`: a None key
      raises; any string, the empty one included, is accepted. */
  method NewShopify(storeSlug: string, adminKey: Option<string>, apiVersion: Arg<string>)
    returns (r: Result<Shopify>)
    ensures r.Err? <==> adminKey.None?
    ensures r.Err? ==> r.error == TypeError(AdminKeyIsNone)
    ensures r.Ok? ==>
      fresh(r.value) && r.value.Valid() && r.value.client == null && r.value.Log() == [] &&
      r.value.url == BaseUrl(storeSlug, Given(apiVersion, DefaultApiVersion)) &&
      r.value.headers == map[AccessTokenHeader := adminKey.value]
  {
    if adminKey.None? {
      return Err(TypeError(AdminKeyIsNone));
    }
    var session := new Shopify(storeSlug, adminKey.value, Given(apiVersion, DefaultApiVersion));
    return Ok(session);
  }
}
