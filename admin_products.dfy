/**
 * The admin products page: the search over product and category names, the status badge, and
 * the create handler's payload mapping followed by logging, dialog close, form reset and reload.
 */
module AdminProducts {
  import opened Wrappers
  import Text
  import Seqs
  import AdminCommon

  /** A product of the list; `categoryName` is `product.category?.categoryName`. */
  datatype ProductListing = ProductListing(productId: Option<int>, productName: Option<string>,
                                           categoryName: Option<string>, isActive: Option<bool>)

  predicate ProductMatches(p: ProductListing, search: string) {
    AdminCommon.SearchHit(p.productName, search) || AdminCommon.SearchHit(p.categoryName, search)
  }

  /** `filteredProducts`. */
  function FilteredProducts(products: seq<ProductListing>, search: string): (r: seq<ProductListing>)
    ensures Seqs.IsSubsequence(r, products)
    ensures forall i :: 0 <= i < |r| ==> ProductMatches(r[i], search)
    ensures forall i :: 0 <= i < |products| && ProductMatches(products[i], search) ==> products[i] in r
  {
    Seqs.Filter(products, (p: ProductListing) => ProductMatches(p, search))
  }

  /** The translation key of the status badge. */
  function StatusKey(isActive: Option<bool>): (key: string)
    ensures key == "adminPanel.products.status.active" <==> isActive != Some(false)
    ensures key == "adminPanel.products.status.inactive" <==> isActive == Some(false)
  {
    if AdminCommon.ShownActive(isActive) then "adminPanel.products.status.active"
    else "adminPanel.products.status.inactive"
  }

  datatype ProductForm = ProductForm(productName: string, description: string, basePrice: string,
                                     categoryId: string, sellerId: string, isActive: bool)

  const BlankProductForm := ProductForm("", "", "", "", "", true)

  /** The create payload. `basePrice` is the text handed to `parseFloat`. */
  datatype CreatePayload = CreatePayload(productName: string, description: Option<string>, basePrice: string,
                                         categoryId: AdminCommon.ParsedId, sellerId: AdminCommon.ParsedId,
                                         isActive: bool)

  function CreatePayloadOf(f: ProductForm): (p: CreatePayload)
    ensures p.productName == f.productName && p.basePrice == f.basePrice && p.isActive == f.isActive
    ensures p.description.None? <==> f.description == ""
    ensures p.description.Some? ==> p.description.value == f.description
    ensures p.categoryId.Omitted? <==> f.categoryId == ""
    ensures p.sellerId.Omitted? <==> f.sellerId == ""
    ensures p.categoryId.Id? ==> Text.ParseInt(f.categoryId) == Some(p.categoryId.id)
    ensures p.sellerId.Id? ==> Text.ParseInt(f.sellerId) == Some(p.sellerId.id)
  {
    CreatePayload(f.productName, Text.OrUndefined(f.description), f.basePrice,
                  AdminCommon.OptionalId(f.categoryId), AdminCommon.OptionalId(f.sellerId), f.isActive)
  }

  datatype ProductsCall =
    | CreateProduct(create: CreatePayload)
    | LogActivity(entityId: Option<int>, description: string)
    | GetProductsPage

  /** The reply of the create call: rejected, the created product's id (if any), or a `null`
      body, whose `productId` is read for the log entry and throws. */
  datatype CreateReply = CreateThrew | Created(productId: Option<int>) | CreatedNull

  class ProductsPage {
    var products: seq<ProductListing>
    var loading: bool
    var search: string
    var dialogOpen: bool
    var form: ProductForm

    constructor ()
      ensures products == [] && loading && search == "" && !dialogOpen && form == BlankProductForm
    {
      products := [];
      loading := true;
      search := "";
      dialogOpen := false;
      form := BlankProductForm;
    }

    /** `loadProducts`: a rejected request, or a `null` body whose `.content` throws, keeps the
        list (`None`); a page without content gives none. */
    method LoadProducts(reply: Option<Option<seq<ProductListing>>>)
      modifies this`products, this`loading
      ensures reply.Some? ==> products == reply.value.GetOr([])
      ensures reply.None? ==> products == old(products)
      ensures !loading
    {
      if reply.Some? {
        products := reply.value.GetOr([]);
      }
      loading := false;
    }

    /** `handleCreateProduct` on the submitted form values: one create call; when it answers,
        the log entry, the dialog closed, the form reset to its defaults and the list reloaded;
        when it is rejected or answers `null`, nothing else. */
    method HandleCreateProduct(data: ProductForm, reply: CreateReply, reload: Option<Option<seq<ProductListing>>>)
      returns (calls: seq<ProductsCall>)
      modifies this`products, this`loading, this`dialogOpen, this`form
      ensures |calls| >= 1 && calls[0] == CreateProduct(CreatePayloadOf(data))
      ensures !reply.Created? ==>
        |calls| == 1 && dialogOpen == old(dialogOpen) && form == old(form)
        && products == old(products) && loading == old(loading)
      ensures reply.Created? ==>
        && calls == [CreateProduct(CreatePayloadOf(data)),
                     LogActivity(reply.productId, "Created product: " + data.productName), GetProductsPage]
        && !dialogOpen && form == BlankProductForm && !loading
        && (reload.Some? ==> products == reload.value.GetOr([]))
        && (reload.None? ==> products == old(products))
    {
      calls := [CreateProduct(CreatePayloadOf(data))];
      if !reply.Created? {
        return;
      }
      calls := calls + [LogActivity(reply.productId, "Created product: " + data.productName)];
      dialogOpen := false;
      form := BlankProductForm;
      calls := calls + [GetProductsPage];
      LoadProducts(reload);
    }
  }
}
