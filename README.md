# shopipy in Dafny

A model of the core of shopipy, an asyncio client for the Shopify Admin REST
API, with proofs about it.

## What is modelled

**The client (`shopify.dfy`, module `ShopifyClient`).** This is the `Shopify` class.
- **Session.** Construction rejects a `None` admin key and accepts any string, the empty one included. It builds the base URL `https://<slug>.myshopify.com/admin/api/<version>` and a single access-token header. An omitted `api_version` is `2023-07`.
- **Lazy client.** The HTTP client is created on first use and reused afterwards.
- **The network** is a request log kept by the client object: `AsyncClient.sent`.
  - `_request` appends one `SentRequest` to the log. Its URL is `base + "/" + path`, its verb comes from `RequestType`, and a `json` keyword becomes its body.
  - Every public operation takes the decoded body the server answers with as a parameter, `reply`.
- **Generic helpers.**
  - `__get_item` checks the ceiling `limit > 250` before anything is sent, and has no floor.
  - `__create_items` POSTs its data.
  - `_delete_item` and `_edit_item` ignore their `item_id` and their extra parameters.
- **Public operations.** `get_orders`, `get_products`, `create_product`, `edit_product`, `delete_product`, `get_customers`, `get_webhooks` and `get_fulfillments` are modelled as written:
  - Paths: `<res>.json` or `<res>/<id>.json`, and the three fulfillment paths.
  - Envelope keys: `orders`/`Orders`, `webhook`/`webhooks`, and `fulfillment`/`fulfillments` chosen by mode.
  - `get_products` always raises: it overwrites its limit with `None`, and `None > 250` raises.
  - `edit_product` and `delete_product` use the `prodcuts/` path.
  - An omitted `limit` is 50 in every public read. `get_webhooks` sends 50 whatever limit it is given.
  - Typed mode is selected by `return_mode == 1`. `ReturnMode` is a plain `Enum`, so neither of its members selects it. Among the modelled values, only the int `1` and `True` do.
  - In typed mode, `Order(o)` and `Fulfillment(f)` pass one positional argument to a dataclass with many fields, and `Webhook(w)` passes two arguments to the one-argument `BaseModel.__init__`. All three raise for every element.
- **Pure specifications.** Each operation is a `class Shopify` method proved against two pure functions:
  - a `...Call` function: the request it sends, or the exception it raises before sending anything;
  - a `...Response` function: how it shapes `reply`.

  `Dispatched` states the effect on the log: one request appended, or nothing changed. It also states the effect on the client: a successful request keeps an existing `AsyncClient`, or on first use creates a new one.

**Dataclasses (`dataclasses.dfy`, module `Dataclasses`).**
- `cls(**v)` for a dataclass without defaults: the keys must be exactly the declared fields; otherwise it raises `TypeError`.
- `cls(x)` with one positional argument binds `x` to the first field.
- A list comprehension over constructors stops at the first call that raises.

**Records (`customer.dfy`, `order.dfy`, `product.dfy`, `fulfillment.dfy`).** These cover the field schemas of `Address`, `Customer`, `Order` and its nested records, `Product` and its nested records, and `Fulfillment`.
- `Customer.__post_init__` is a method of `class Customer`. It converts `default_address`, then walks the `addresses` dict and overwrites each entry in place.
- `Order.__post_init__` is a method of `class Order`. It runs the twenty reassignments in source order. They are a table (`Conversions`) walked by a loop, and the first one that raises ends construction.

**Values (`values.dfy`, module `Values`)** defines:
- Python values as the client sees them: decoded JSON, plus dataclass instances given as a class name and an attribute map;
- the exceptions raised, as Python exception classes with a reason;
- `str()` of an integer identifier, with its round trip.

## Model

| member | source | states |
|---|---|---|
| `ShopifyClient.Verb` | shopipy/shopify.py:13-17 | each request type's value is a non-empty verb that `RequestType(...)` maps back to that type |
| `ShopifyClient.IsTyped` | shopipy/shopify.py:20-22 | `return_mode == 1` holds for neither `ReturnMode` member; for an int it holds exactly for 1, for a bool exactly for `True`, and for no other modelled value |
| `ShopifyClient.VerbRoundTrip` | shopipy/shopify.py:13-17 | the four request types and the verbs get/post/put/delete correspond one to one |
| `ShopifyClient.NewShopify` | shopipy/shopify.py:28-47 | raises TypeError exactly when the admin key is None (an empty key is accepted); otherwise the base URL is `https://<slug>.myshopify.com/admin/api/<version>`, the version being `2023-07` when it is left out, the headers are just the access token, no client exists and nothing has been sent |
| `ShopifyClient.BaseUrl` | shopipy/shopify.py:45 | the base URL starts with `https://`, ends with the API version, and is 33 characters longer than the slug and the version together |
| `ShopifyClient.Shopify.constructor` | shopipy/shopify.py:45-47 | the session holds the base URL for its slug and version and the access-token header, with no client yet and nothing sent |
| `ShopifyClient.BaseUrlDetermines` | shopipy/shopify.py:45 | for slugs without a dot, equal base URLs mean equal slugs and equal API versions |
| `ShopifyClient.SplitAtFirst` | shopipy/shopify.py:45 | splitting a string at the first separator is unambiguous; used to read slugs and ids back out of URLs and paths |
| `ShopifyClient.Shopify.Client` | shopipy/shopify.py:49-53 | the first access creates a client with the session's headers and an empty log; every later access returns that same client; the log is unchanged |
| `ShopifyClient.RequestCall` | shopipy/shopify.py:63-78 | `_request(path, verb, **kwargs)`: a `json` keyword becomes the body (no body otherwise); every other keyword becomes a query parameter; a keyword `_request` already binds raises TypeError |
| `ShopifyClient.AsyncClient.Request` | shopipy/shopify.py:73-78 | `client.request(...)` appends one request with its verb, URL, parameters and body to the log, and changes nothing else |
| `ShopifyClient.Shopify.Request` | shopipy/shopify.py:63-78 | a successful `_request` appends exactly one request to the log: verb, `base + "/" + path`, parameters and body as RequestCall says, through the existing client or, on first use, a newly created one; a failure leaves the log and the client unchanged |
| `ShopifyClient.GetItemCall` | shopipy/shopify.py:80-99 | succeeds exactly when no keyword is given twice and the limit is an int of at most 250 (negatives and 0 included); it then sends GET with the caller's parameters plus `limit`; `limit > 250` raises AttributeError, a None limit raises TypeError |
| `ShopifyClient.DefaultLimitAccepted` | shopipy/shopify.py:139 | a read that leaves `limit` out sends 50 and raises only for a repeated keyword, never for the ceiling |
| `ShopifyClient.Shopify.GetItem` | shopipy/shopify.py:80-99 | sends the request GetItemCall gives, or raises its error with the log unchanged |
| `ShopifyClient.CreateItemsCall` | shopipy/shopify.py:101-114 | POSTs `data` as the body with the given parameters; raises TypeError exactly when a parameter is named `self`, `url_json_path`, `data`, `json` or `method`, each a keyword `__create_items` or `_request` already binds |
| `ShopifyClient.Shopify.CreateItems` | shopipy/shopify.py:101-114 | sends the request CreateItemsCall gives, or raises its error with the log unchanged |
| `ShopifyClient.DeleteItemCall` | shopipy/shopify.py:116-122 | the request is what `_request(path, DELETE)` builds: no body and no parameters |
| `ShopifyClient.EditItemCall` | shopipy/shopify.py:124-135 | the request is what `_request(path, EDIT, json=json)` builds: the given body and no parameters |
| `ShopifyClient.MutationIgnoresItemId` | shopipy/shopify.py:116-135 | delete and edit requests do not depend on `item_id` or on the extra parameters |
| `ShopifyClient.Shopify.DeleteItem` | shopipy/shopify.py:116-122 | appends the DeleteItemCall request to the log |
| `ShopifyClient.Shopify.EditItem` | shopipy/shopify.py:124-135 | appends the EditItemCall request to the log |
| `ShopifyClient.ItemPathRoundTrip` | shopipy/shopify.py:149-151 | the id segment of `<res>/<id>.json` reads back as the id's text; `<res>.json` has no id segment |
| `ShopifyClient.IntIdPathsDistinct` | shopipy/shopify.py:151 | different integer ids give different item paths |
| `ShopifyClient.ItemPath` | shopipy/shopify.py:149-151 | an item path starts with the resource name and ends in `.json`; the collection path is exactly `<res>.json` and the only one that short |
| `ShopifyClient.OrdersCall` | shopipy/shopify.py:149-153 | `get_orders` succeeds exactly when no keyword repeats and the limit is an int of at most 250; it then sends GET to the orders path with that limit |
| `ShopifyClient.OrdersResponse` | shopipy/shopify.py:155-158 | dict mode returns the `orders` entry; mode 1 reads `Orders` instead and succeeds only when that entry is empty, giving an empty list |
| `ShopifyClient.OrdersResponseCallsOrder` | shopipy/shopify.py:155-156 | for an `Orders` list in mode 1, the result is MapAll of OrderFromOneArg over its elements, i.e. `[Order(o) for o in ...]` |
| `ShopifyClient.Shopify.GetOrders` | shopipy/shopify.py:137-158 | sends the `orders` request for the given id, limit (50 when left out) and parameters (or raises first), then returns the OrdersResponse result |
| `ShopifyClient.ProductsCall` | shopipy/shopify.py:192-198 | get_products raises TypeError whatever its arguments |
| `ShopifyClient.ProductsResponse` | shopipy/shopify.py:200-203 | the unreachable shaping step: the `products` entry as given, or `Product(**p)` for each element of a list |
| `ShopifyClient.Shopify.GetProducts` | shopipy/shopify.py:180-203 | raises the ProductsCall error; the log and the client are unchanged |
| `ShopifyClient.CreateProductCall` | shopipy/shopify.py:220-230 | POSTs `data` to `products.json` with no parameters; it cannot fail before sending |
| `ShopifyClient.Shopify.CreateProduct` | shopipy/shopify.py:220-230 | appends the CreateProductCall request and returns the decoded reply |
| `ShopifyClient.ProductItemPathMisspelt` | shopipy/shopify.py:238-249 | the product edit and delete path differs from the product item path that reads use, and it has no `products/` id segment |
| `ShopifyClient.EditProductCall` | shopipy/shopify.py:238-241 | `edit_product` PUTs `data` to `prodcuts/<id>.json` with no query parameters |
| `ShopifyClient.DeleteProductCall` | shopipy/shopify.py:246-249 | `delete_product` sends a bodyless DELETE to `prodcuts/<id>.json` with no query parameters |
| `ShopifyClient.Shopify.EditProduct` | shopipy/shopify.py:238-241 | PUTs `data` to `prodcuts/<id>.json` and returns the decoded reply |
| `ShopifyClient.Shopify.DeleteProduct` | shopipy/shopify.py:246-249 | sends DELETE to `prodcuts/<id>.json` with no body and returns the decoded reply |
| `ShopifyClient.CustomersCall` | shopipy/shopify.py:265-270 | `get_customers` succeeds exactly when no keyword repeats and the limit is an int of at most 250; it then sends GET to the customers path with that limit |
| `ShopifyClient.CustomersResponse` | shopipy/shopify.py:272-275 | dict mode returns the `customers` entry; mode 1 maps `Customer(**c)` over a list, element by element |
| `ShopifyClient.Shopify.GetCustomers` | shopipy/shopify.py:254-275 | sends the `customers` request, with limit 50 when it is left out (or raises first); in mode 1 it builds each customer with the post-initialisation loop; the result equals AfterCall of CustomersCall and CustomersResponse |
| `ShopifyClient.ShapeCustomers` | shopipy/shopify.py:272-275 | the shaping step of `get_customers`: mode 1 builds each customer with the post-initialisation loop, otherwise the `customers` entry; the result equals CustomersResponse |
| `ShopifyClient.WebhooksCall` | shopipy/shopify.py:310-312 | GETs the webhooks path; the limit sent is always 50, so the ceiling never raises; only a repeated keyword does |
| `ShopifyClient.BaseModelInit` | shopipy/models/base.py:10-11 | `BaseModel.__init__` succeeds exactly for one argument, which it stores as the instance's data; any other count raises TypeError |
| `ShopifyClient.WebhookInit` | shopipy/models/webhook.py:4-9 | no call to `Webhook` builds one: one argument reaches the base constructor as two, and any other count is rejected by `Webhook.__init__` |
| `ShopifyClient.WebhookFromOneArg` | shopipy/models/webhook.py:4-9 | `Webhook(w)` raises TypeError whatever `w` is |
| `ShopifyClient.WebhooksKey` | shopipy/shopify.py:321 | `get_webhooks` reads `webhook` exactly when an id is given, `webhooks` otherwise |
| `ShopifyClient.WebhooksResponse` | shopipy/shopify.py:314-321 | reads `webhook` exactly when an id was given, `webhooks` otherwise; mode 1 fails for one webhook and gives an empty list at best |
| `ShopifyClient.WebhooksResponseCallsWebhook` | shopipy/shopify.py:315-318 | for a `webhooks` list in mode 1 with no id, the result is MapAll of WebhookFromOneArg over its elements, i.e. `[Webhook(w) for w in ...]` |
| `ShopifyClient.Shopify.GetWebhooks` | shopipy/shopify.py:297-321 | sends the `webhooks` request with limit 50 (or raises first), then returns the WebhooksResponse result |
| `ShopifyClient.FulfillmentPath` | shopipy/shopify.py:339-352 | raises AttributeError exactly when a fulfillment id is given without an order id; otherwise builds one of the three paths, `fulfillments.json` when neither id is given |
| `ShopifyClient.FulfillmentPathDetermines` | shopipy/shopify.py:339-352 | for ids without a slash, the path determines which ids were given and their text |
| `ShopifyClient.FulfillmentsCall` | shopipy/shopify.py:339-354 | the missing order id raises before any request; a sent request uses the FulfillmentPath path |
| `ShopifyClient.FulfillmentsKeysDisagree` | shopipy/shopify.py:356-363 | dict mode and mode 1 read the same envelope key only for a given but falsy id (0 or ""); for None and every other id they read opposite keys |
| `ShopifyClient.FulfillmentsKey` | shopipy/shopify.py:356-363 | in dict mode the singular key is read exactly when the id is None; in mode 1 exactly when the id is truthy |
| `ShopifyClient.FulfillmentsResponse` | shopipy/shopify.py:356-363 | dict mode returns the entry under its key; mode 1 fails for a truthy id and gives an empty list at best |
| `ShopifyClient.FulfillmentsResponseCallsFulfillment` | shopipy/shopify.py:356-359 | for a `fulfillments` list in mode 1 with a falsy id, the result is MapAll of FulfillmentFromOneArg over its elements, i.e. `[Fulfillment(f) for f in ...]` |
| `ShopifyClient.Shopify.GetFulfillments` | shopipy/shopify.py:323-363 | chooses the path (or raises before sending), sends the request with the `params` dict and the limit (50 when left out), then returns the FulfillmentsResponse result |
| `Values.IdText` | shopipy/shopify.py:151 | an f-string formats a string id unchanged; an int id is formatted as decimal text, which parses back to the same int and contains no `/` or `.` |
| `Values.DecimalRoundTrip` | shopipy/shopify.py:151 | `str(n)` of an int parses back to `n` |
| `Values.Truthy` | shopipy/shopify.py:357 | an optional id is truthy exactly when it is given and is neither 0 nor "" |
| `Values.Subscript` | shopipy/shopify.py:158 | `v[key]` succeeds exactly on a dict holding the key; a missing key raises KeyError; a value that is not a dict raises TypeError |
| `Dataclasses.Init` | shopipy/models/fulfillment.py:4-12 | a dataclass call with keyword arguments succeeds exactly when the keys are the declared fields, and the instance then holds the given values; otherwise TypeError |
| `Dataclasses.CallOneArg` | shopipy/shopify.py:156 | a call with one positional argument succeeds only for a dataclass with one field |
| `Dataclasses.EachRejected` | shopipy/shopify.py:156 | a comprehension over a constructor that always raises yields a list only for an empty iterable; a non-iterable raises TypeError |
| `Dataclasses.EachRejectedIsMapAll` | shopipy/shopify.py:156 | on a list, EachRejected equals MapAll of any constructor call that always raises that class's TypeError |
| `Dataclasses.MapAll` | shopipy/shopify.py:273 | a comprehension succeeds exactly when every call does, and its list holds each result in order; otherwise the first failing call's exception |
| `CustomerModel.NewAddress` | shopipy/models/customer.py:4-20 | `Address(**v)` needs exactly the 15 declared keys, the optional ones included |
| `CustomerModel.PostInitSpec` | shopipy/models/customer.py:45-48 | the post-initialisation, when it succeeds, keeps the instance's set of attributes |
| `CustomerModel.PostInitSpecMeaning` | shopipy/models/customer.py:45-48 | post-initialisation succeeds exactly when the default address and every entry of a dict `addresses` build an `Address`; it then replaces those and keeps the key set and every other field; a non-dict `addresses` raises AttributeError |
| `CustomerModel.CustomerSpecMeaning` | shopipy/models/customer.py:23-48 | `Customer(**v)` succeeds exactly when the keys are the 19 declared fields and post-initialisation succeeds; the instance holds what post-initialisation leaves |
| `CustomerModel.CustomerSpec` | shopipy/models/customer.py:23-43 | a call whose keys are not the declared fields raises TypeError; a success is a `Customer` instance |
| `CustomerModel.PostInitRejects` | shopipy/models/customer.py:47-48 | one `addresses` entry that does not build an `Address` makes the post-initialisation raise TypeError, whichever entries were converted before it |
| `CustomerModel.PostInitAccepts` | shopipy/models/customer.py:47-48 | once every `addresses` entry has been replaced by its `Address`, the attributes are exactly those the post-initialisation promises |
| `CustomerModel.Customer.PostInit` | shopipy/models/customer.py:45-48 | the in-place conversion of the default address and of each `addresses` entry leaves exactly the attributes PostInitSpec gives, or raises its error |
| `CustomerModel.NewCustomer` | shopipy/models/customer.py:23-48 | the keyword check, a fresh instance and its post-initialisation agree with CustomerSpec |
| `CustomerModel.BuildCustomer` | shopipy/shopify.py:273 | one element of the comprehension agrees with CustomerSpec |
| `CustomerModel.BuildCustomerList` | shopipy/shopify.py:273 | the loop over a list of customers agrees with MapAll over CustomerSpec |
| `CustomerModel.BuildCustomers` | shopipy/shopify.py:273 | the typed customer comprehension over any decoded value agrees with CustomersFrom |
| `CustomerModel.CustomersFrom` | shopipy/shopify.py:273 | a list succeeds exactly when every element builds a `Customer`, giving them in order; any other iterable succeeds only when empty, since its keys or characters are rejected by `**`; a non-iterable raises TypeError |
| `CustomerModel.CustomerRejectsString` | shopipy/shopify.py:273 | `Customer(**s)` for a string raises TypeError |
| `OrderModel.Convert` | shopipy/models/order.py:213-248 | each reassignment produces an instance of its target class |
| `OrderModel.Apply` | shopipy/models/order.py:211-248 | running the reassignments keeps the attribute names and leaves every field outside the table unchanged |
| `OrderModel.ApplyMeaning` | shopipy/models/order.py:211-248 | a run of distinct reassignments succeeds exactly when every listed field converts; each listed field then holds its converted value; otherwise the first failing field decides the exception |
| `OrderModel.ConversionsFacts` | shopipy/models/order.py:211-248 | the twenty reassigned fields are distinct, declared fields of `Order` |
| `OrderModel.OrderSpec` | shopipy/models/order.py:125-209 | `Order(**v)` with keys other than the 83 declared fields raises TypeError; a success is an `Order` instance |
| `OrderModel.OrderSpecMeaning` | shopipy/models/order.py:125-248 | `Order(**v)` succeeds exactly when the keys are the declared fields and all twenty reassignments convert |
| `OrderModel.OrderSpecAttributes` | shopipy/models/order.py:211-248 | in a constructed `Order` each reassigned field holds the record converted from its input and every other field holds its input unchanged |
| `OrderModel.OrderSpecFailure` | shopipy/models/order.py:211-248 | when the keys bind but `Order(**v)` raises, the exception is that of the first reassignment, in source order, that fails |
| `OrderModel.OrderRecordField` | shopipy/models/order.py:213-248 | a field the table converts to a record class receives exactly that class's fields and holds the record built from them |
| `OrderModel.OrderCustomer` | shopipy/models/order.py:228 | the `customer` field holds `Customer(**...)`, including its own address conversion |
| `OrderModel.OrderUnconvertedField` | shopipy/models/order.py:148-191 | `current_subtotal_price_set`, `current_total_tax_set`, `fulfillments`, `line_items`, `tax_lines`, `discount_codes`, `shipping_lines` and `refunds` keep their input values |
| `OrderModel.OrderFromOneArg` | shopipy/shopify.py:156 | `Order(o)` with one positional argument always raises TypeError |
| `OrderModel.Order.Reassign` | shopipy/models/order.py:213 | one statement `self.f = C(**self.f)` replaces only that field, or raises leaving the instance unchanged |
| `OrderModel.Order.Reassignments` | shopipy/models/order.py:211-248 | the loop over the table leaves the attributes Apply gives, or raises its error |
| `OrderModel.Order.PostInit` | shopipy/models/order.py:211-248 | post-initialisation is the table run over the instance's attributes |
| `OrderModel.NewOrder` | shopipy/models/order.py:125-248 | the keyword check, a fresh instance and its post-initialisation agree with OrderSpec |
| `ProductModel.NewProduct` | shopipy/models/product.py:4-21 | `Product(**p)` needs exactly the 16 declared keys; every field, `images` and `variants` included, keeps its input unconverted |
| `ProductModel.NewProductImage` | shopipy/models/product.py:24-34 | `ProductImage(**v)` needs exactly its 9 keys |
| `ProductModel.NewProductOption` | shopipy/models/product.py:37-43 | `ProductOption(**v)` needs exactly its 5 keys |
| `ProductModel.NewProductVariant` | shopipy/models/product.py:46-68 | `ProductVariant(**v)` needs exactly its 21 keys |
| `FulfillmentModel.NewFulfillment` | shopipy/models/fulfillment.py:4-12 | `Fulfillment(**v)` needs exactly the seven declared keys, and its fields hold the input values |
| `FulfillmentModel.FulfillmentFromOneArg` | shopipy/shopify.py:358-359 | `Fulfillment(x)` with one positional argument always raises TypeError |

## Left out

- HTTP and JSON decoding. The `httpx.AsyncClient` becomes a log of sent requests. The response body becomes the decoded value `reply`, given to each operation.
- The HTTP status is not modelled. Neither is a body that does not decode.
- Transport failures of `client.request` (connection errors, time-outs) are not modelled: every send succeeds, and the reply is a parameter.
- asyncio is not modelled. Each `async def` is a sequential method.
- `bulk_request` (concurrent fan-out through `asyncio.gather`) is not modelled, because the order in which its requests reach the client is not fixed.
- The `*_sync` wrappers only call `asyncio.run` on the operation they wrap. They are not modelled.
- The environment-variable default for `admin_key` is read once, when the function is defined. It is not modelled: the key is a parameter.
- The root `shopify.py` is an unfinished draft, superseded by `shopipy/shopify.py`. It is not part of this model.
- `shopipy/models/base.py` is modelled only through its constructor, which `Webhook(w)` calls. `BaseModel.__getattr__` is not modelled, because no built instance reaches it. `shopipy/models/__init__.py` only re-exports names.
- The imports `from asyncio.tasks import _FutureLike`, `from base import ...`, `from fulfillment import ...` and `from customer import ...` are assumed to resolve as intended. As written, several of them would fail when the package is imported.
- Dataclass annotations are not enforced at run time, so only key presence is modelled. JSON floats have no case in `Value`; no modelled operation reads the value of a float field, so any stand-in value behaves the same.
- The `limit` argument is modelled as an int or None. Python's `>` on other types (str, float, bool) is not modelled.
- Python's error message names the first clashing keyword in dict insertion order. Maps here are unordered, so `DuplicateArgument` does not name it.
- The order in which `Customer.__post_init__` visits the `addresses` dict is the dict's insertion order. The loop here picks keys in an unspecified order. Every `Address` failure is the same TypeError, so the result does not depend on the order.
- `Customer.__post_init__` overwrites the caller's `addresses` dict in place, because the instance shares it. The model does not track that aliasing: the instance's attributes are a map value, and the caller's dict is not updated.
- A typed result holds each instance's attributes as they are when it is returned, as an `Instance` value. Identity of the Python objects is not kept.
- `Order.__post_init__` is twenty literal statements that differ only in field and class. The model runs them as a loop over a table in the same order, with the same effect and the same first failure.
- `ShopifyClient.DeleteItemCall` and `ShopifyClient.EditItemCall` do not model the path they compute from `item_id` and then discard, since it has no effect.
