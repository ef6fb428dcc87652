/** The product categories page: its placeholder fetch, save and delete APIs over the
    categories key, and the page state with its handlers. */
module Categories {
  import opened Wrappers
  import opened Text
  import opened Storage
  import opened CategoryList

  /** What the modal hands to the page's save handler: a category without its id. */
  datatype CategoryDraft = CategoryDraft(name: string, parentName: Option<string>)

  const SaveError: string := "Simulated save error!"
  const LoadError: string := "Failed to load categories."
  const DeleteRefused: string := "Could not delete the category (simulated prevention)."
  /** The one id the delete API refuses to remove. */
  const ProtectedId: Id := Str("cat1")

  /** The seven built-in categories, each under the parent "Parent". */
  const DefaultCategories: seq<Category> := [
    Category(Str("cat1"), "Health", Some("Parent")),
    Category(Str("cat2"), "Journalism", Some("Parent")),
    Category(Str("cat3"), "Wellness", Some("Parent")),
    Category(Str("cat4"), "Inspiration", Some("Parent")),
    Category(Str("cat5"), "Food & Nutrition", Some("Parent")),
    Category(Str("cat6"), "Science & Technology", Some("Parent")),
    Category(Str("cat7"), "Entertainment", Some("Parent"))
  ]

  /** `saveCategoryApi` throws exactly for a name that lower-cases to "error". */
  predicate RejectedName(name: string) {
    ToLower(name) == "error"
  }

  /** Some category in the list has the id. */
  predicate HasId(s: seq<Category>, id: Id) {
    exists i | 0 <= i < |s| :: s[i].id == id
  }

  /** `fetchCategories`: the stored list when the key is present, otherwise the seven
      defaults `cat1` … `cat7`, in order, all with parent "Parent". */
  function FetchCategories(stored: Option<seq<Category>>): (r: seq<Category>)
    ensures stored.Some? ==> r == stored.value
    ensures stored.None? ==>
      |r| == 7 && r[0].id == ProtectedId &&
      forall i | 0 <= i < 7 :: r[i].parentName == Some("Parent")
  {
    FetchOrDefault(stored, DefaultCategories)
  }

  /** The category the save API reports: the draft under the given id. Merging the draft
      into a stored category with that id gives the same record. */
  function Saved(id: Id, draft: CategoryDraft): (c: Category)
    ensures c.id == id && c.name == draft.name && c.parentName == draft.parentName
  {
    Category(id, draft.name, draft.parentName)
  }

  /** `saveCategoryApi`. A name that lower-cases to "error" throws before the key is
      read. Otherwise, when a stored category has the id, every such category is merged
      with the draft and the list is written back; when none has it, nothing is written.
      Either way the draft under the id is returned as if it had been saved. */
  method SaveCategoryApi(store: Store<Category>, id: Id, draft: CategoryDraft) returns (r: Result<Category>)
    modifies store
    ensures RejectedName(draft.name) ==> r == Failure(SaveError) && store.stored == old(store.stored)
    ensures !RejectedName(draft.name) ==> r == Success(Saved(id, draft))
    ensures !RejectedName(draft.name) && HasId(old(store.Current()), id) ==>
      store.stored == Some(ReplaceWhere(old(store.Current()), CategoryId, Some(id), Saved(id, draft)))
    ensures !HasId(old(store.Current()), id) ==> store.stored == old(store.stored)
  {
    if RejectedName(draft.name) {
      return Failure(SaveError);
    }
    var current := store.Current();
    var updated := ReplaceWhere(current, CategoryId, Some(id), Saved(id, draft));
    if HasId(current, id) {
      store.Write(updated);
    }
    r := Success(Saved(id, draft));
  }

  /** `deleteCategoryApi`. The protected id reports failure and touches nothing. Any other
      id succeeds: the categories with that id are filtered out and the list is written
      back only when something was removed. */
  method DeleteCategoryApi(store: Store<Category>, id: Id) returns (success: bool)
    modifies store
    ensures success <==> id != ProtectedId
    ensures success && HasId(old(store.Current()), id) ==>
      store.stored == Some(RemoveWhere(old(store.Current()), CategoryId, id))
    ensures !success || !HasId(old(store.Current()), id) ==> store.stored == old(store.stored)
  {
    if id == ProtectedId {
      return false;
    }
    var current := store.Current();
    var updated := RemoveWhere(current, CategoryId, id);
    RemoveWhereLength(current, CategoryId, id);
    if |current| != |updated| {
      store.Write(updated);
    }
    success := true;
  }

  /** The key after a successful `saveCategoryApi`: the merged list when a stored
      category has the id, and the key as it was when none has. */
  function SavedStore(stored: Option<seq<Category>>, id: Id, draft: CategoryDraft): Option<seq<Category>> {
    if HasId(stored.GetOr([]), id) then Some(ReplaceWhere(stored.GetOr([]), CategoryId, Some(id), Saved(id, draft)))
    else stored
  }

  class CategoryPage {
    var categories: seq<Category>
    var isLoading: bool
    var error: Option<string>
    var isModalOpen: bool
    var editingCategory: Option<Category>

    /** First render: no categories, loading, no error, the modal closed. */
    constructor ()
      ensures categories == [] && isLoading && error == None
      ensures !isModalOpen && editingCategory == None
    {
      categories, isLoading, error := [], true, None;
      isModalOpen, editingCategory := false, None;
    }

    /** What the page shows in place of the list. */
    function View(): View
      reads this
    {
      Render(categories, isLoading, error)
    }

    /** The mount effect `loadData`. On success the fetched list is shown and, when the key
        was absent, written to it; a rejected fetch shows the load error and keeps the
        list. Loading ends either way; the modal is untouched. */
    method LoadData(store: Store<Category>, fetchFails: bool)
      modifies this, store
      ensures !isLoading && isModalOpen == old(isModalOpen) && editingCategory == old(editingCategory)
      ensures fetchFails ==>
        error == Some(LoadError) && categories == old(categories) && store.stored == old(store.stored)
      ensures !fetchFails ==>
        error == None && categories == FetchCategories(old(store.stored)) &&
        store.stored == Some(categories)
    {
      isLoading := true;
      error := None;
      if fetchFails {
        error := Some(LoadError);
      } else {
        var data := FetchCategories(store.stored);
        categories := data;
        if store.stored.None? {
          store.Write(data);
        }
      }
      isLoading := false;
    }

    /** `handleEdit`: remember the category and open the modal. */
    method HandleEdit(c: Category)
      modifies this
      ensures editingCategory == Some(c) && isModalOpen
      ensures categories == old(categories) && isLoading == old(isLoading) && error == old(error)
    {
      editingCategory := Some(c);
      isModalOpen := true;
    }

    /** `handleCloseModal`: close the modal and forget the edited category. */
    method HandleCloseModal()
      modifies this
      ensures editingCategory == None && !isModalOpen
      ensures categories == old(categories) && isLoading == old(isLoading) && error == old(error)
    {
      isModalOpen := false;
      editingCategory := None;
    }

    /** `handleDelete`. Without confirmation nothing happens. A successful delete drops
        every listed category with the id; a refused one leaves the list and shows the
        prevention alert, which is returned. */
    method HandleDelete(store: Store<Category>, id: Id, confirmed: bool) returns (alert: Option<string>)
      modifies this, store
      ensures isLoading == old(isLoading) && error == old(error)
      ensures isModalOpen == old(isModalOpen) && editingCategory == old(editingCategory)
      ensures !confirmed ==> alert == None && categories == old(categories) && store.stored == old(store.stored)
      ensures confirmed && id == ProtectedId ==>
        alert == Some(DeleteRefused) && categories == old(categories) && store.stored == old(store.stored)
      ensures confirmed && id != ProtectedId ==>
        alert == None && categories == RemoveWhere(old(categories), CategoryId, id) &&
        (HasId(old(store.Current()), id) ==> store.stored == Some(RemoveWhere(old(store.Current()), CategoryId, id))) &&
        (!HasId(old(store.Current()), id) ==> store.stored == old(store.stored))
    {
      alert := None;
      if !confirmed {
        return;
      }
      var success := DeleteCategoryApi(store, id);
      if success {
        categories := RemoveWhere(categories, CategoryId, id);
      } else {
        alert := Some(DeleteRefused);
      }
    }

    /** `handleSave`, awaited by the modal. With no edited category it resolves at once
        and changes nothing. Otherwise it saves the draft under the edited id: a thrown
        error rejects with its message and leaves the page as it was; on success every
        listed category with that id becomes the saved record and the promise resolves.
        When the page list and the stored list agreed and held the id, they still agree. */
    method HandleSave(store: Store<Category>, draft: CategoryDraft) returns (outcome: Outcome)
      modifies this, store
      ensures isLoading == old(isLoading) && error == old(error)
      ensures isModalOpen == old(isModalOpen) && editingCategory == old(editingCategory)
      ensures old(editingCategory).None? ==>
        outcome == Resolved && categories == old(categories) && store.stored == old(store.stored)
      ensures old(editingCategory).Some? && RejectedName(draft.name) ==>
        outcome == Rejected(SaveError) && categories == old(categories) && store.stored == old(store.stored)
      ensures old(editingCategory).Some? && !RejectedName(draft.name) ==>
        outcome == Resolved &&
        categories == ReplaceWhere(old(categories), CategoryId, Some(old(editingCategory).value.id),
                                   Saved(old(editingCategory).value.id, draft)) &&
        store.stored == SavedStore(old(store.stored), old(editingCategory).value.id, draft)
      ensures old(editingCategory).Some? && outcome == Resolved &&
              old(categories) == old(store.Current()) && HasId(old(categories), old(editingCategory).value.id) ==>
        store.stored == Some(categories)
    {
      if editingCategory.None? {
        return Resolved;
      }
      var id := editingCategory.value.id;
      var r := SaveCategoryApi(store, id, draft);
      if r.Failure? {
        return Rejected(r.message);
      }
      categories := ReplaceWhere(categories, CategoryId, Some(id), r.value);
      outcome := Resolved;
    }
  }

  /** Deleting twice removes nothing more than deleting once. */
  lemma {:induction false} DeleteIdempotent(s: seq<Category>, id: Id)
    ensures RemoveWhere(RemoveWhere(s, CategoryId, id), CategoryId, id) == RemoveWhere(s, CategoryId, id)
  {
    if s != [] {
      DeleteIdempotent(s[1..], id);
    }
  }

  /** After a successful delete the id is gone from the list, while every category with
      another id stays, so the table has no row whose delete button names it. */
  lemma {:induction false} DeletedIdHasNoRow(s: seq<Category>, id: Id, error: Option<string>)
    ensures !HasId(RemoveWhere(s, CategoryId, id), id)
    ensures forall i | 0 <= i < |s| && s[i].id != id :: s[i] in RemoveWhere(s, CategoryId, id)
    ensures Render(RemoveWhere(s, CategoryId, id), false, error).Table? ==>
      forall j | 0 <= j < |Render(RemoveWhere(s, CategoryId, id), false, error).rows| ::
        Render(RemoveWhere(s, CategoryId, id), false, error).rows[j].onDelete != id
  {
    RemoveWhereSound(s, CategoryId, id);
    RemoveWhereComplete(s, CategoryId, id);
  }

  /** Saving the same draft twice leaves the list as saving it once. */
  lemma SaveIdempotent(s: seq<Category>, id: Id, draft: CategoryDraft)
    ensures ReplaceWhere(ReplaceWhere(s, CategoryId, Some(id), Saved(id, draft)), CategoryId, Some(id), Saved(id, draft))
         == ReplaceWhere(s, CategoryId, Some(id), Saved(id, draft))
  {
    var once := ReplaceWhere(s, CategoryId, Some(id), Saved(id, draft));
    var twice := ReplaceWhere(once, CategoryId, Some(id), Saved(id, draft));
    assert |twice| == |once|;
    forall i | 0 <= i < |once| ensures twice[i] == once[i] {
    }
  }
}
