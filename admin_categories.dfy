/**
 * The admin categories page: the name search, the parent-name lookup, the status badge, the
 * edit form defaults, and the save handler that updates or creates a category, logs the action
 * and reloads the list.
 */
module AdminCategories {
  import opened Wrappers
  import Text
  import Seqs
  import AdminCommon

  datatype CategoryRow = CategoryRow(categoryId: Option<int>, categoryName: Option<string>,
                                     categoryImage: Option<string>, parentCategoryId: Option<int>,
                                     isActive: Option<bool>)

  /** `filteredCategories`: the search against the category name. */
  function FilteredCategories(categories: seq<CategoryRow>, search: string): (r: seq<CategoryRow>)
    ensures Seqs.IsSubsequence(r, categories)
    ensures forall i :: 0 <= i < |r| ==> AdminCommon.SearchHit(r[i].categoryName, search)
    ensures forall i :: 0 <= i < |categories| && AdminCommon.SearchHit(categories[i].categoryName, search) ==>
              categories[i] in r
  {
    Seqs.Filter(categories, (c: CategoryRow) => AdminCommon.SearchHit(c.categoryName, search))
  }

  /** `getCategoryName`: null for an absent or zero id; otherwise the first category with that
      id, by its name when the name is not empty; null when there is none. */
  function CategoryName(categories: seq<CategoryRow>, id: Option<int>): (r: Option<string>)
    ensures id.None? || id == Some(0) ==> r.None?
    ensures var k := Seqs.FirstIndex(categories, (c: CategoryRow) => c.categoryId == id);
      id.Some? && id != Some(0) ==>
        && (k < |categories| && AdminCommon.Truthy(categories[k].categoryName) ==> r == categories[k].categoryName)
        && (!(k < |categories| && AdminCommon.Truthy(categories[k].categoryName)) ==> r.None?)
  {
    if id.None? || id == Some(0) then None
    else
      match Seqs.Find(categories, (c: CategoryRow) => c.categoryId == id)
      case Some(c) => if AdminCommon.Truthy(c.categoryName) then c.categoryName else None
      case None => None
  }

  /** A name is only ever returned for an id some category carries, and it is never empty. */
  lemma CategoryNameFound(categories: seq<CategoryRow>, id: Option<int>)
    ensures CategoryName(categories, id).Some? ==>
      CategoryName(categories, id).value != ""
      && exists i :: 0 <= i < |categories| && categories[i].categoryId == id
                     && categories[i].categoryName == CategoryName(categories, id)
  {
    if CategoryName(categories, id).Some? {
      var k := Seqs.FirstIndex(categories, (c: CategoryRow) => c.categoryId == id);
      assert categories[k].categoryId == id;
    }
  }

  datatype CategoryForm = CategoryForm(categoryName: string, categoryImage: string, parentCategoryId: string,
                                       isActive: bool)

  const BlankCategoryForm := CategoryForm("", "", "", true)

  /** `handleEdit`'s form: texts or "", the parent id as text or "", active unless exactly false. */
  function EditForm(c: CategoryRow): (f: CategoryForm)
    ensures f.categoryName == AdminCommon.OrEmpty(c.categoryName)
    ensures f.categoryImage == AdminCommon.OrEmpty(c.categoryImage)
    ensures c.parentCategoryId.Some? ==> Text.ParseInt(f.parentCategoryId) == c.parentCategoryId
    ensures c.parentCategoryId.None? ==> f.parentCategoryId == ""
    ensures f.isActive <==> c.isActive != Some(false)
  {
    CategoryForm(AdminCommon.OrEmpty(c.categoryName), AdminCommon.OrEmpty(c.categoryImage),
                 AdminCommon.NumberText(c.parentCategoryId, ""), AdminCommon.ShownActive(c.isActive))
  }

  datatype UpdatePayload = UpdatePayload(categoryName: string, categoryImage: Option<string>, isActive: bool)

  datatype CreatePayload = CreatePayload(categoryName: string, categoryImage: Option<string>,
                                         parentCategoryId: AdminCommon.ParsedId, isActive: bool)

  function UpdatePayloadOf(f: CategoryForm): UpdatePayload {
    UpdatePayload(f.categoryName, Text.OrUndefined(f.categoryImage), f.isActive)
  }

  function CreatePayloadOf(f: CategoryForm): CreatePayload {
    CreatePayload(f.categoryName, Text.OrUndefined(f.categoryImage), AdminCommon.OptionalId(f.parentCategoryId),
                  f.isActive)
  }

  datatype ActivityKind = Create | Update

  datatype CategoriesCall =
    | UpdateCategory(id: Option<int>, update: UpdatePayload)
    | CreateCategory(create: CreatePayload)
    | LogActivity(kind: ActivityKind, entityId: Option<int>, description: string)
    | GetAllCategories

  /** The reply of the update or create call: rejected, or answered (with the created id, if
      any). */
  datatype SaveReply = SaveThrew | Saved(categoryId: Option<int>) | SavedNull

  /** Whether the save ends in the error toast: a rejected call, or a create answered with a
      `null` body, whose `categoryId` is read for the log entry. An update's reply is not read. */
  predicate SaveFails(save: SaveReply, editing: Option<CategoryRow>) {
    save.SaveThrew? || (save.SavedNull? && editing.None?)
  }

  /** Editing an existing category never sends a parent id; the image is absent when empty. */
  lemma EditSavesWithoutParent(f: CategoryForm)
    ensures UpdatePayloadOf(f).categoryName == f.categoryName && UpdatePayloadOf(f).isActive == f.isActive
    ensures UpdatePayloadOf(f).categoryImage.None? <==> f.categoryImage == ""
  {
  }

  /** Opening a category for editing and saving it unchanged sends back its name (or ""), its
      image (an empty one as absent) and its active flag as the form showed it. */
  lemma UnchangedEditSendsBack(c: CategoryRow)
    ensures UpdatePayloadOf(EditForm(c)).categoryName == AdminCommon.OrEmpty(c.categoryName)
    ensures UpdatePayloadOf(EditForm(c)).categoryImage
         == if AdminCommon.Truthy(c.categoryImage) then c.categoryImage else None
    ensures UpdatePayloadOf(EditForm(c)).isActive <==> c.isActive != Some(false)
  {
    AdminCommon.OrEmptyOrUndefined(c.categoryImage);
  }

  /** Creating parses the parent id, and sends none when the field is blank; a parent id shown
      in the edit form parses back to itself. */
  lemma CreateParsesParent(f: CategoryForm, c: CategoryRow)
    ensures CreatePayloadOf(f).parentCategoryId.Omitted? <==> f.parentCategoryId == ""
    ensures CreatePayloadOf(f).parentCategoryId.Id? ==>
              Text.ParseInt(f.parentCategoryId) == Some(CreatePayloadOf(f).parentCategoryId.id)
    ensures c.parentCategoryId.Some? ==>
              CreatePayloadOf(EditForm(c)).parentCategoryId == AdminCommon.Id(c.parentCategoryId.value)
  {
    AdminCommon.OptionalIdRoundTrip(c.parentCategoryId);
  }

  class CategoriesPage {
    var categories: seq<CategoryRow>
    var loading: bool
    var search: string
    var dialogOpen: bool
    var editing: Option<CategoryRow>
    var form: CategoryForm

    constructor ()
      ensures categories == [] && loading && search == "" && !dialogOpen && editing == None
      ensures form == BlankCategoryForm
    {
      categories := [];
      loading := true;
      search := "";
      dialogOpen := false;
      editing := None;
      form := BlankCategoryForm;
    }

    /** `loadCategories`: a rejected request keeps the list; an empty reply gives none. */
    method LoadCategories(reply: Option<Option<seq<CategoryRow>>>)
      modifies this`categories, this`loading
      ensures reply.Some? ==> categories == reply.value.GetOr([])
      ensures reply.None? ==> categories == old(categories)
      ensures !loading
    {
      if reply.Some? {
        categories := reply.value.GetOr([]);
      }
      loading := false;
    }

    /** `handleCreate`. */
    method HandleCreate()
      modifies this`editing, this`form, this`dialogOpen
      ensures editing == None && form == BlankCategoryForm && dialogOpen
    {
      editing := None;
      form := BlankCategoryForm;
      dialogOpen := true;
    }

    /** `handleEdit`. */
    method HandleEdit(c: CategoryRow)
      modifies this`editing, this`form, this`dialogOpen
      ensures editing == Some(c) && form == EditForm(c) && dialogOpen
    {
      editing := Some(c);
      form := EditForm(c);
      dialogOpen := true;
    }

    /** `handleSubmit`: update when editing, create otherwise. After an answered save the action
        is logged (logging never fails), the dialog closes and the list is reloaded; after a
        rejected save nothing else happens and the dialog stays open. */
    method HandleSubmit(save: SaveReply, reload: Option<Option<seq<CategoryRow>>>) returns (calls: seq<CategoriesCall>)
      modifies this`categories, this`loading, this`dialogOpen
      ensures |calls| >= 1
      ensures editing.Some? ==> calls[0] == UpdateCategory(editing.value.categoryId, UpdatePayloadOf(form))
      ensures editing.None? ==> calls[0] == CreateCategory(CreatePayloadOf(form))
      ensures SaveFails(save, editing) ==> |calls| == 1 && dialogOpen == old(dialogOpen)
                                           && categories == old(categories) && loading == old(loading)
      ensures !SaveFails(save, editing) ==>
        var logged := if editing.Some? then LogActivity(Update, editing.value.categoryId, "Updated category: " + form.categoryName)
                      else LogActivity(Create, save.categoryId, "Created category: " + form.categoryName);
        && |calls| == 3
        && calls[1..] == [logged, GetAllCategories]
        && !dialogOpen && !loading
        && (reload.Some? ==> categories == reload.value.GetOr([]))
        && (reload.None? ==> categories == old(categories))
    {
      if editing.Some? {
        calls := [UpdateCategory(editing.value.categoryId, UpdatePayloadOf(form))];
      } else {
        calls := [CreateCategory(CreatePayloadOf(form))];
      }
      if SaveFails(save, editing) {
        return;
      }
      if editing.Some? {
        calls := calls + [LogActivity(Update, editing.value.categoryId, "Updated category: " + form.categoryName)];
      } else {
        calls := calls + [LogActivity(Create, save.categoryId, "Created category: " + form.categoryName)];
      }
      dialogOpen := false;
      calls := calls + [GetAllCategories];
      LoadCategories(reload);
    }
  }
}
