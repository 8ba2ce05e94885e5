/**
 * The admin variants page: the search filter over product name, color, size and sku, the
 * product-name column, the variant label, the low-stock flag, and the create/edit form state.
 * Submit and delete are placeholders that show a note instead of calling a mutating endpoint.
 */
module AdminVariants {
  import opened Wrappers
  import Text
  import Seqs
  import AdminCommon

  /** Below this stock quantity a row is flagged. */
  const LowStockThreshold := 10

  datatype VariantRow = VariantRow(variantId: Option<int>, productId: Option<int>, color: Option<string>,
                                   size: Option<string>, sku: Option<string>, stockQuantity: Option<int>,
                                   price: Option<int>, isActive: Option<bool>)

  /** The search hits the product's name, the color, the size or the sku. */
  predicate VariantMatches(products: seq<AdminCommon.ProductRow>, v: VariantRow, search: string) {
    || AdminCommon.SearchHit(AdminCommon.FoundName(products, v.productId), search)
    || AdminCommon.SearchHit(v.color, search)
    || AdminCommon.SearchHit(v.size, search)
    || AdminCommon.SearchHit(v.sku, search)
  }

  /** `filteredVariants`. */
  function FilteredVariants(variants: seq<VariantRow>, products: seq<AdminCommon.ProductRow>, search: string)
    : (r: seq<VariantRow>)
    ensures Seqs.IsSubsequence(r, variants)
    ensures forall i :: 0 <= i < |r| ==> VariantMatches(products, r[i], search)
    ensures forall i :: 0 <= i < |variants| && VariantMatches(products, variants[i], search) ==> variants[i] in r
  {
    Seqs.Filter(variants, (v: VariantRow) => VariantMatches(products, v, search))
  }

  /** With an empty search a variant is shown iff it has a named product, a color, a size or
      a sku. */
  lemma EmptySearchKeepsDescribed(products: seq<AdminCommon.ProductRow>, v: VariantRow)
    ensures VariantMatches(products, v, "") <==>
      AdminCommon.FoundName(products, v.productId).Some? || v.color.Some? || v.size.Some? || v.sku.Some?
  {
    AdminCommon.EmptySearchHitsPresent(AdminCommon.FoundName(products, v.productId));
    AdminCommon.EmptySearchHitsPresent(v.color);
    AdminCommon.EmptySearchHitsPresent(v.size);
    AdminCommon.EmptySearchHitsPresent(v.sku);
  }

  /** The label column: "color / size" when both are set, else whichever is set, else "-". */
  function VariantLabel(v: VariantRow): (r: string)
    ensures r != ""
    ensures AdminCommon.Truthy(v.color) && AdminCommon.Truthy(v.size) ==> r == v.color.value + " / " + v.size.value
    ensures AdminCommon.Truthy(v.color) && !AdminCommon.Truthy(v.size) ==> r == v.color.value
    ensures !AdminCommon.Truthy(v.color) && AdminCommon.Truthy(v.size) ==> r == v.size.value
    ensures !AdminCommon.Truthy(v.color) && !AdminCommon.Truthy(v.size) ==> r == "-"
  {
    if AdminCommon.Truthy(v.color) && AdminCommon.Truthy(v.size) then v.color.value + " / " + v.size.value
    else if AdminCommon.Truthy(v.color) then v.color.value
    else if AdminCommon.Truthy(v.size) then v.size.value
    else "-"
  }

  /** `variant.stockQuantity < 10`; an absent quantity is not flagged. */
  predicate LowStockRow(v: VariantRow) {
    v.stockQuantity.Some? && v.stockQuantity.value < LowStockThreshold
  }

  datatype VariantForm = VariantForm(productId: string, color: string, size: string, stockQuantity: string,
                                     price: string, sku: string, isActive: bool)

  const BlankVariantForm := VariantForm("", "", "", "0", "0", "", true)

  /** `handleEdit`'s form: numbers as text (absent ones as "" for the product, "0" for stock
      and price), texts or "", and active unless the flag is exactly false. */
  function EditForm(v: VariantRow): (f: VariantForm)
    ensures v.productId.Some? ==> Text.ParseInt(f.productId) == v.productId
    ensures v.productId.None? ==> f.productId == ""
    ensures v.stockQuantity.Some? ==> Text.ParseInt(f.stockQuantity) == v.stockQuantity
    ensures v.stockQuantity.None? ==> f.stockQuantity == "0"
    ensures v.price.Some? ==> Text.ParseInt(f.price) == v.price
    ensures v.price.None? ==> f.price == "0"
    ensures f.color == AdminCommon.OrEmpty(v.color) && f.size == AdminCommon.OrEmpty(v.size)
    ensures f.sku == AdminCommon.OrEmpty(v.sku)
    ensures f.isActive <==> v.isActive != Some(false)
  {
    VariantForm(AdminCommon.NumberText(v.productId, ""), AdminCommon.OrEmpty(v.color), AdminCommon.OrEmpty(v.size),
                AdminCommon.NumberText(v.stockQuantity, "0"), AdminCommon.NumberText(v.price, "0"),
                AdminCommon.OrEmpty(v.sku), AdminCommon.ShownActive(v.isActive))
  }

  /** The reads the page makes; it has no call that changes a variant. */
  datatype VariantsCall = GetAllVariants | GetAllProducts

  class VariantsPage {
    var variants: seq<VariantRow>
    var products: seq<AdminCommon.ProductRow>
    var loading: bool
    var search: string
    var dialogOpen: bool
    var editing: Option<VariantRow>
    var form: VariantForm

    constructor ()
      ensures variants == [] && products == [] && loading && search == ""
      ensures !dialogOpen && editing == None && form == BlankVariantForm
    {
      variants := [];
      products := [];
      loading := true;
      search := "";
      dialogOpen := false;
      editing := None;
      form := BlankVariantForm;
    }

    /** `getProductName` on the loaded products. */
    function ProductNameOf(productId: Option<int>): string
      reads this
    {
      AdminCommon.ProductName(products, productId)
    }

    /** The rows shown for the current search. */
    function Shown(): seq<VariantRow>
      reads this
    {
      FilteredVariants(variants, products, search)
    }

    /** `loadData`: a failed or empty variants reply gives no rows; a failed products reply or
        one without `content` gives no products, and a `null` products page keeps the old list
        after the variants are set. */
    method LoadData(variantsReply: Option<seq<VariantRow>>, productsReply: AdminCommon.ProductsPageReply)
      modifies this`variants, this`products, this`loading
      ensures variants == variantsReply.GetOr([])
      ensures products == AdminCommon.ProductsAfter(old(products), productsReply)
      ensures !loading
    {
      variants := variantsReply.GetOr([]);
      products := AdminCommon.ProductsAfter(products, productsReply);
      loading := false;
    }

    method SetSearch(value: string)
      modifies this`search
      ensures search == value
    {
      search := value;
    }

    /** `handleCreate`. */
    method HandleCreate()
      modifies this`editing, this`form, this`dialogOpen
      ensures editing == None && form == BlankVariantForm && dialogOpen
    {
      editing := None;
      form := BlankVariantForm;
      dialogOpen := true;
    }

    /** `handleEdit`. */
    method HandleEdit(v: VariantRow)
      modifies this`editing, this`form, this`dialogOpen
      ensures editing == Some(v) && form == EditForm(v) && dialogOpen
    {
      editing := Some(v);
      form := EditForm(v);
      dialogOpen := true;
    }

    /** `handleSubmit`: only closes the dialog; the variants are untouched. */
    method HandleSubmit()
      modifies this`dialogOpen
      ensures !dialogOpen
    {
      dialogOpen := false;
    }

    /** `handleDelete`: an unconfirmed delete does nothing; a confirmed one only reloads the
        two lists, so no variant is removed unless the backend's list no longer has it. */
    method HandleDelete(confirmed: bool, variantsReply: Option<seq<VariantRow>>,
                        productsReply: AdminCommon.ProductsPageReply) returns (calls: seq<VariantsCall>)
      modifies this`variants, this`products, this`loading
      ensures !confirmed ==> calls == [] && variants == old(variants) && products == old(products)
                             && loading == old(loading)
      ensures confirmed ==> calls == [GetAllVariants, GetAllProducts]
                            && variants == variantsReply.GetOr([])
                            && products == AdminCommon.ProductsAfter(old(products), productsReply)
                            && !loading
    {
      if !confirmed {
        return [];
      }
      LoadData(variantsReply, productsReply);
      calls := [GetAllVariants, GetAllProducts];
    }
  }
}
