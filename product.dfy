/** The product dataclasses. `Product(**p)` is a plain key check: there is
    no `__post_init__`, so nested images and variants stay as decoded. */
module ProductModel {
  import opened Values
  import opened Dataclasses

  const ProductFields: seq<string> :=
    ["body_html", "created_at", "handle", "id", "images", "options", "product_type",
     "published_at", "published_scope", "status", "tags", "template_suffix", "title",
     "updated_at", "variants", "vendor"]

  const ProductImageFields: seq<string> :=
    ["id", "product_id", "position", "created_at", "updated_at", "width", "height",
     "src", "variant_ids"]

  const ProductOptionFields: seq<string> :=
    ["id", "product_id", "name", "position", "values"]

  const ProductVariantFields: seq<string> :=
    ["barcode", "compare_at_price", "created_at", "fulfillment_service", "grams",
     "weight", "weight_unit", "id", "inventory_item_id", "inventory_management",
     "inventory_policy", "inventory_quantity", "option1", "position", "price",
     "product_id", "requires_shipping", "sku", "taxable", "title", "updated_at"]

  /** `Product(**p)`: all 16 declared keys are required (the `| None`
      annotations give no default) and no other key is accepted; every
      field, `images` and `variants` included, holds its input unchanged. */
  function NewProduct(p: Value): (r: Result<Value>)
    ensures r.Ok? <==>
      p.Dict? &&
      p.entries.Keys ==
        {"body_html", "created_at", "handle", "id", "images", "options", "product_type",
         "published_at", "published_scope", "status", "tags", "template_suffix", "title",
         "updated_at", "variants", "vendor"}
    ensures r.Ok? ==> r.value == Instance("Product", p.entries)
    ensures r.Err? ==> r.error == TypeError(BadConstructorCall("Product"))
  {
    Init("Product", ProductFields, p)
  }

  /** `ProductImage(**v)`: the nine declared keys, exactly. */
  function NewProductImage(v: Value): (r: Result<Value>)
    ensures r.Ok? <==>
      v.Dict? &&
      v.entries.Keys ==
        {"id", "product_id", "position", "created_at", "updated_at", "width", "height",
         "src", "variant_ids"}
    ensures r.Ok? ==> r.value == Instance("ProductImage", v.entries)
    ensures r.Err? ==> r.error == TypeError(BadConstructorCall("ProductImage"))
  {
    Init("ProductImage", ProductImageFields, v)
  }

  /** `ProductOption(**v)`: the five declared keys, exactly. */
  function NewProductOption(v: Value): (r: Result<Value>)
    ensures r.Ok? <==>
      v.Dict? &&
      v.entries.Keys == {"id", "product_id", "name", "position", "values"}
    ensures r.Ok? ==> r.value == Instance("ProductOption", v.entries)
    ensures r.Err? ==> r.error == TypeError(BadConstructorCall("ProductOption"))
  {
    Init("ProductOption", ProductOptionFields, v)
  }

  /** `ProductVariant(**v)`: the 21 declared keys, exactly. */
  function NewProductVariant(v: Value): (r: Result<Value>)
    ensures r.Ok? <==> v.Dict? && v.entries.Keys == FieldSet(ProductVariantFields)
    ensures r.Ok? ==> r.value == Instance("ProductVariant", v.entries)
    ensures r.Err? ==> r.error == TypeError(BadConstructorCall("ProductVariant"))
  {
    Init("ProductVariant", ProductVariantFields, v)
  }
}
