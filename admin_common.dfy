/**
 * Rules the admin list pages share: the case-insensitive search on an optional text field,
 * JavaScript truthiness of optional values, the active flag read as `isActive !== false`, the
 * optional ids the forms parse, and the product-name lookup with its fallback.
 */
module AdminCommon {
  import opened Wrappers
  import Text
  import Seqs

  /** `field?.toLowerCase().includes(search.toLowerCase())`; an absent field never matches. */
  predicate SearchHit(field: Option<string>, search: string) {
    field.Some? && Text.Includes(Text.ToLower(field.value), Text.ToLower(search))
  }

  /** A hit is an occurrence of the lower-cased search somewhere in the lower-cased field. */
  lemma SearchHitIffOccurs(field: Option<string>, search: string)
    ensures SearchHit(field, search) <==>
      field.Some? && exists i :: Text.OccursAt(Text.ToLower(field.value), Text.ToLower(search), i)
  {
    if field.Some? {
      Text.IncludesIffOccurs(Text.ToLower(field.value), Text.ToLower(search));
    }
  }

  /** An empty search matches every present field and no absent one. */
  lemma EmptySearchHitsPresent(field: Option<string>)
    ensures SearchHit(field, "") <==> field.Some?
  {
    if field.Some? {
      Text.IncludesEmpty(Text.ToLower(field.value));
    }
  }

  /** The search ignores ASCII case on both sides. */
  lemma SearchIgnoresCase(value: string, search: string)
    ensures SearchHit(Some(value), search) <==> SearchHit(Some(Text.ToUpper(value)), Text.ToLower(search))
  {
    Text.ToLowerOfUpper(value);
    Text.ToLowerIdempotent(search);
  }

  /** A present, non-empty string. */
  predicate Truthy(s: Option<string>) {
    s.Some? && s.value != ""
  }

  /** `s || ""`. */
  function OrEmpty(s: Option<string>): string {
    if Truthy(s) then s.value else ""
  }

  /** A text put into a form field with `|| ""` and sent back with `|| undefined` is the
      original value, except that an empty one comes back absent. */
  lemma OrEmptyOrUndefined(s: Option<string>)
    ensures Text.OrUndefined(OrEmpty(s)) == if Truthy(s) then s else None
  {
  }

  /** The products page as the admin `loadData` handlers read it: a `null` body, whose
      `.content` throws, or a page with an optional `content`. A rejected request is caught as
      `{content: []}`, that is `Page(Some([]))`. */
  datatype ProductsPageReply = NullPage | Page(content: Option<seq<ProductRow>>)

  /** The products list after `setProducts(productsData.content || [])`: the page's content, or
      none when it has no content; a `null` page throws first and leaves `current` in place. */
  function ProductsAfter(current: seq<ProductRow>, reply: ProductsPageReply): (r: seq<ProductRow>)
    ensures reply.NullPage? ==> r == current
    ensures reply.Page? && reply.content.Some? ==> r == reply.content.value
    ensures reply.Page? && reply.content.None? ==> r == []
  {
    match reply
    case NullPage => current
    case Page(content) => content.GetOr([])
  }

  /** `isActive !== false`: an absent flag counts as active. */
  predicate ShownActive(isActive: Option<bool>) {
    isActive != Some(false)
  }

  /** The status badge text. */
  function StatusLabel(isActive: Option<bool>): (r: string)
    ensures r == "Active" <==> isActive != Some(false)
    ensures r == "Inactive" <==> isActive == Some(false)
  {
    if ShownActive(isActive) then "Active" else "Inactive"
  }

  /** `n?.toString() || fallback`: the rendering of a number is never empty, so only an absent
      number falls back. */
  function NumberText(n: Option<int>, fallback: string): (r: string)
    ensures n.Some? ==> r != "" && Text.ParseInt(r) == n
    ensures n.None? ==> r == fallback
  {
    match n
    case Some(v) =>
      Text.ParseIntToString(v);
      Text.IntToString(v)
    case None => fallback
  }

  /** `s ? parseInt(s) : undefined`. A text `parseInt` cannot read gives `NaN`. */
  datatype ParsedId = Omitted | NotANumber | Id(id: int)

  function OptionalId(s: string): (r: ParsedId)
    ensures r == Omitted <==> s == ""
    ensures s != "" ==> (r == NotANumber <==> Text.ParseInt(s).None?)
    ensures r.Id? ==> Text.ParseInt(s) == Some(r.id)
  {
    if s == "" then Omitted
    else match Text.ParseInt(s)
      case None => NotANumber
      case Some(v) => Id(v)
  }

  /** A form field filled from an optional number and parsed back gives the number again. */
  lemma OptionalIdRoundTrip(n: Option<int>)
    ensures OptionalId(NumberText(n, "")) == (if n.Some? then Id(n.value) else Omitted)
  {
  }

  // ---- the product-name lookup of the variants and images pages ----

  /** An entry of the products list as far as the lookups read it. */
  datatype ProductRow = ProductRow(productId: Option<int>, productName: Option<string>)

  /** `products.find((p) => p.productId === productId)`; two absent ids are equal. */
  function FindProduct(products: seq<ProductRow>, productId: Option<int>): Option<ProductRow> {
    Seqs.Find(products, (p: ProductRow) => p.productId == productId)
  }

  /** `product?.productName`. */
  function FoundName(products: seq<ProductRow>, productId: Option<int>): Option<string> {
    match FindProduct(products, productId)
    case Some(p) => p.productName
    case None => None
  }

  /** The id as the template literal renders it. */
  function IdInText(productId: Option<int>): string {
    match productId
    case Some(v) => Text.IntToString(v)
    case None => "undefined"
  }

  /** `getProductName`: the first product with that id, by its name when the name is not
      empty; otherwise "Product #" and the id. */
  function ProductName(products: seq<ProductRow>, productId: Option<int>): (r: string)
    ensures var k := Seqs.FirstIndex(products, (p: ProductRow) => p.productId == productId);
      && (k < |products| && Truthy(products[k].productName) ==> r == products[k].productName.value)
      && (!(k < |products| && Truthy(products[k].productName)) ==> r == "Product #" + IdInText(productId))
  {
    var name := FoundName(products, productId);
    if Truthy(name) then name.value else "Product #" + IdInText(productId)
  }

  /** The name shown is never empty. */
  lemma ProductNameNotEmpty(products: seq<ProductRow>, productId: Option<int>)
    ensures ProductName(products, productId) != ""
  {
    var r := ProductName(products, productId);
    if !Truthy(FoundName(products, productId)) {
      assert r[0] == 'P';
    }
  }

  /** With no product of that id the fallback names the id. */
  lemma ProductNameFallback(products: seq<ProductRow>, productId: int)
    requires forall i :: 0 <= i < |products| ==> products[i].productId != Some(productId)
    ensures ProductName(products, Some(productId)) == "Product #" + Text.IntToString(productId)
  {
  }
}
