/**
 * The admin images page: the search over product name and URL, the product-name column, the
 * create form's reset, and the submit handler's required-field check and payload.
 */
module AdminImages {
  import opened Wrappers
  import Text
  import Seqs
  import AdminCommon

  datatype ImageRow = ImageRow(imageId: Option<int>, productId: Option<int>, imageUrl: Option<string>,
                               isPrimary: Option<bool>)

  predicate ImageMatches(products: seq<AdminCommon.ProductRow>, img: ImageRow, search: string) {
    || AdminCommon.SearchHit(AdminCommon.FoundName(products, img.productId), search)
    || AdminCommon.SearchHit(img.imageUrl, search)
  }

  /** `filteredImages`. */
  function FilteredImages(images: seq<ImageRow>, products: seq<AdminCommon.ProductRow>, search: string)
    : (r: seq<ImageRow>)
    ensures Seqs.IsSubsequence(r, images)
    ensures forall i :: 0 <= i < |r| ==> ImageMatches(products, r[i], search)
    ensures forall i :: 0 <= i < |images| && ImageMatches(products, images[i], search) ==> images[i] in r
  {
    Seqs.Filter(images, (img: ImageRow) => ImageMatches(products, img, search))
  }

  datatype ImageForm = ImageForm(productId: string, variantId: string, imageUrl: string, isPrimary: bool)

  const BlankImageForm := ImageForm("", "", "", false)

  /** The create payload: the product id always parsed, the variant id parsed or absent. */
  datatype CreatePayload = CreatePayload(productId: Option<int>, variantId: AdminCommon.ParsedId,
                                         imageUrl: string, isPrimary: bool)

  function CreatePayloadOf(f: ImageForm): (p: CreatePayload)
    requires f.productId != ""
    ensures p.productId == Text.ParseInt(f.productId)
    ensures p.variantId.Omitted? <==> f.variantId == ""
    ensures p.variantId.Id? ==> Text.ParseInt(f.variantId) == Some(p.variantId.id)
    ensures p.imageUrl == f.imageUrl && p.isPrimary == f.isPrimary
  {
    CreatePayload(Text.ParseInt(f.productId), AdminCommon.OptionalId(f.variantId), f.imageUrl, f.isPrimary)
  }

  datatype ImagesCall =
    | CreateImage(create: CreatePayload)
    | LogActivity(entityId: Option<int>, description: string)
    | GetAllImages
    | GetAllProducts

  /** What `handleSubmit` sends for a form and a create reply (`true` when it answered). */
  function SubmitCalls(f: ImageForm, created: bool): (calls: seq<ImagesCall>)
    ensures f.productId == "" || f.imageUrl == "" ==> calls == []
    ensures f.productId != "" && f.imageUrl != "" ==> |calls| >= 1 && calls[0] == CreateImage(CreatePayloadOf(f))
    ensures f.productId != "" && f.imageUrl != "" && !created ==> |calls| == 1
    ensures f.productId != "" && f.imageUrl != "" && created ==>
              calls[1..] == [LogActivity(Text.ParseInt(f.productId), "Added image to product ID: " + f.productId),
                             GetAllImages, GetAllProducts]
  {
    if f.productId == "" || f.imageUrl == "" then []
    else
      var create := [CreateImage(CreatePayloadOf(f))];
      if created then
        create + [LogActivity(Text.ParseInt(f.productId), "Added image to product ID: " + f.productId),
                  GetAllImages, GetAllProducts]
      else create
  }

  /** A form lacking a product id or a URL never reaches the create endpoint. */
  lemma MissingFieldNoCreate(f: ImageForm, created: bool)
    requires f.productId == "" || f.imageUrl == ""
    ensures forall i :: 0 <= i < |SubmitCalls(f, created)| ==> !SubmitCalls(f, created)[i].CreateImage?
  {
  }

  class ImagesPage {
    var images: seq<ImageRow>
    var products: seq<AdminCommon.ProductRow>
    var loading: bool
    var search: string
    var dialogOpen: bool
    var form: ImageForm

    constructor ()
      ensures images == [] && products == [] && loading && search == "" && !dialogOpen
      ensures form == BlankImageForm
    {
      images := [];
      products := [];
      loading := true;
      search := "";
      dialogOpen := false;
      form := BlankImageForm;
    }

    /** `getProductName` on the loaded products. */
    function ProductNameOf(productId: Option<int>): string
      reads this
    {
      AdminCommon.ProductName(products, productId)
    }

    /** `loadData`: a failed or empty images reply gives no images; the products follow
        `ProductsAfter`, so a `null` products page keeps the old list after the images are set. */
    method LoadData(imagesReply: Option<seq<ImageRow>>, productsReply: AdminCommon.ProductsPageReply)
      modifies this`images, this`products, this`loading
      ensures images == imagesReply.GetOr([])
      ensures products == AdminCommon.ProductsAfter(old(products), productsReply)
      ensures !loading
    {
      images := imagesReply.GetOr([]);
      products := AdminCommon.ProductsAfter(products, productsReply);
      loading := false;
    }

    /** `handleCreate`: a blank form, not primary, and the dialog open. */
    method HandleCreate()
      modifies this`form, this`dialogOpen
      ensures form == BlankImageForm && dialogOpen
      ensures form.productId == "" && form.variantId == "" && form.imageUrl == "" && !form.isPrimary
    {
      form := BlankImageForm;
      dialogOpen := true;
    }

    /** `handleSubmit`: rejected without a call when the product id or the URL is empty; an
        answered create is logged, closes the dialog and reloads both lists. */
    method HandleSubmit(created: bool, imagesReply: Option<seq<ImageRow>>,
                        productsReply: AdminCommon.ProductsPageReply) returns (calls: seq<ImagesCall>)
      modifies this`images, this`products, this`loading, this`dialogOpen
      ensures calls == SubmitCalls(form, created)
      ensures form.productId != "" && form.imageUrl != "" && created ==>
                !dialogOpen && images == imagesReply.GetOr([])
                && products == AdminCommon.ProductsAfter(old(products), productsReply)
                && !loading
      ensures !(form.productId != "" && form.imageUrl != "" && created) ==>
                dialogOpen == old(dialogOpen) && images == old(images) && products == old(products)
                && loading == old(loading)
    {
      if form.productId == "" || form.imageUrl == "" {
        return [];
      }
      calls := [CreateImage(CreatePayloadOf(form))];
      if !created {
        return;
      }
      calls := calls + [LogActivity(Text.ParseInt(form.productId), "Added image to product ID: " + form.productId)];
      dialogOpen := false;
      calls := calls + [GetAllImages, GetAllProducts];
      assert calls == SubmitCalls(form, created);
      LoadData(imagesReply, productsReply);
    }
  }
}
