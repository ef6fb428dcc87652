/** The category edit modal: the effect that seeds or clears its fields, and the submit
    handler that trims the input and awaits the page's save handler. */
module CategoryModal {
  import opened Wrappers
  import opened Text
  import opened Storage
  import opened CategoryList
  import opened Categories

  const NameEmpty: string := "Category name cannot be empty."
  const SaveFallback: string := "An error occurred while saving."

  /** The draft built from the two fields: the trimmed name, and the trimmed parent name,
      or null when that is empty. */
  function MakeDraft(categoryName: string, parentNameInput: string): CategoryDraft {
    var parent := Trim(parentNameInput);
    CategoryDraft(Trim(categoryName), if parent == [] then None else Some(parent))
  }

  /** The draft's name is the trimmed name; its parent is null exactly when the parent
      field is blank, and otherwise the trimmed, non-empty parent name. */
  lemma MakeDraftFields(categoryName: string, parentNameInput: string)
    ensures MakeDraft(categoryName, parentNameInput).name == Trim(categoryName)
    ensures MakeDraft(categoryName, parentNameInput).parentName.None? <==> IsBlank(parentNameInput)
    ensures MakeDraft(categoryName, parentNameInput).parentName.Some? ==>
      MakeDraft(categoryName, parentNameInput).parentName.value == Trim(parentNameInput) &&
      MakeDraft(categoryName, parentNameInput).parentName.value != []
  {
  }

  /** The only check of `handleSubmit`: the category name must not be blank. */
  function Validate(categoryName: string): Option<string> {
    BlankCheck(categoryName, NameEmpty)
  }

  /** A field value with no white space at either end. */
  predicate Trimmed(s: string) {
    s == [] || (!IsSpace(s[0]) && !IsSpace(s[|s| - 1]))
  }

  /** Opening a category whose name is trimmed and not empty, and whose parent is null or
      a trimmed non-empty name, and submitting without typing, sends back exactly that
      category's name and parent. */
  lemma {:induction false} SeededCategoryResubmits(c: Category)
    requires c.name != [] && Trimmed(c.name)
    requires c.parentName.Some? ==> c.parentName.value != [] && Trimmed(c.parentName.value)
    ensures MakeDraft(c.name, c.parentName.GetOr("")) == CategoryDraft(c.name, c.parentName)
  {
    TrimOfUntrimmed(c.name);
    if c.parentName.Some? {
      TrimOfUntrimmed(c.parentName.value);
    } else {
      assert IsBlank("");
    }
  }

  /** Whatever was typed, the draft's fields are already trimmed: trimming them again
      changes nothing. */
  lemma DraftIsTrimmed(categoryName: string, parentNameInput: string)
    ensures Trim(MakeDraft(categoryName, parentNameInput).name) == MakeDraft(categoryName, parentNameInput).name
    ensures MakeDraft(categoryName, parentNameInput).parentName.Some? ==>
      Trim(MakeDraft(categoryName, parentNameInput).parentName.value) == MakeDraft(categoryName, parentNameInput).parentName.value
  {
    TrimIdempotent(categoryName);
    TrimIdempotent(parentNameInput);
  }

  class EditCategoryModal {
    var categoryName: string
    var parentNameInput: string
    var isSaving: bool
    var error: Option<string>

    constructor ()
      ensures categoryName == "" && parentNameInput == "" && !isSaving && error == None
    {
      categoryName, parentNameInput, isSaving, error := "", "", false, None;
    }

    /** The effect on `[isOpen, initialData]`. Open with a category: seed both fields (a
        null parent as the empty string) and reset the error and saving flag. Closed: clear
        both fields only. Open without a category: nothing. */
    method Sync(page: CategoryPage)
      modifies this
      ensures page.isModalOpen && page.editingCategory.Some? ==>
        categoryName == page.editingCategory.value.name &&
        parentNameInput == page.editingCategory.value.parentName.GetOr("") &&
        error == None && !isSaving
      ensures !page.isModalOpen ==>
        categoryName == "" && parentNameInput == "" && error == old(error) && isSaving == old(isSaving)
      ensures page.isModalOpen && page.editingCategory.None? ==>
        categoryName == old(categoryName) && parentNameInput == old(parentNameInput) &&
        error == old(error) && isSaving == old(isSaving)
    {
      if page.isModalOpen && page.editingCategory.Some? {
        categoryName := page.editingCategory.value.name;
        parentNameInput := page.editingCategory.value.parentName.GetOr("");
        error := None;
        isSaving := false;
      } else if !page.isModalOpen {
        categoryName := "";
        parentNameInput := "";
      }
    }

    /** `handleSubmit`. A blank name sets its message and returns: nothing else changes,
        not even the saving flag. Otherwise the trimmed draft is handed to the page's save
        handler; when that resolves the modal asks the page to close it, and when it
        rejects the message (or the fallback for an empty one) is shown and the modal stays
        open. Saving is over in both cases. */
    method Submit(page: CategoryPage, store: Store<Category>) returns (draft: Option<CategoryDraft>)
      modifies this, page, store
      ensures categoryName == old(categoryName) && parentNameInput == old(parentNameInput)
      ensures page.isLoading == old(page.isLoading) && page.error == old(page.error)
      ensures Validate(old(categoryName)).Some? ==>
        draft == None && error == Some(NameEmpty) && isSaving == old(isSaving) &&
        unchanged(page) && store.stored == old(store.stored)
      ensures Validate(old(categoryName)).None? ==>
        draft == Some(MakeDraft(old(categoryName), old(parentNameInput))) && !isSaving
      ensures draft.Some? && old(page.editingCategory).None? ==>
        error == None && !page.isModalOpen && page.editingCategory == None &&
        page.categories == old(page.categories) && store.stored == old(store.stored)
      ensures draft.Some? && old(page.editingCategory).Some? && RejectedName(draft.value.name) ==>
        error == Some(SaveError) && page.isModalOpen == old(page.isModalOpen) &&
        page.editingCategory == old(page.editingCategory) &&
        page.categories == old(page.categories) && store.stored == old(store.stored)
      ensures draft.Some? && old(page.editingCategory).Some? && !RejectedName(draft.value.name) ==>
        error == None && !page.isModalOpen && page.editingCategory == None &&
        page.categories == ReplaceWhere(old(page.categories), CategoryId, Some(old(page.editingCategory).value.id),
                                        Saved(old(page.editingCategory).value.id, draft.value)) &&
        store.stored == SavedStore(old(store.stored), old(page.editingCategory).value.id, draft.value)
    {
      var check := Validate(categoryName);
      if check.Some? {
        error := check;
        return None;
      }
      error := None;
      isSaving := true;
      draft := Some(MakeDraft(categoryName, parentNameInput));
      Save(page, store, draft.value);
    }

    /** The part of `handleSubmit` that awaits the page's save handler with the draft. When
        it resolves the modal asks the page to close it (without an edited category that
        is all that happens); when it rejects, the message (or the fallback for an empty
        one) is shown and the modal stays open. Saving is over in both cases. */
    method Save(page: CategoryPage, store: Store<Category>, draft: CategoryDraft)
      modifies this, page, store
      ensures categoryName == old(categoryName) && parentNameInput == old(parentNameInput) && !isSaving
      ensures page.isLoading == old(page.isLoading) && page.error == old(page.error)
      ensures old(page.editingCategory).None? ==>
        error == old(error) && !page.isModalOpen && page.editingCategory == None &&
        page.categories == old(page.categories) && store.stored == old(store.stored)
      ensures old(page.editingCategory).Some? && RejectedName(draft.name) ==>
        error == Some(SaveError) && page.isModalOpen == old(page.isModalOpen) &&
        page.editingCategory == old(page.editingCategory) &&
        page.categories == old(page.categories) && store.stored == old(store.stored)
      ensures old(page.editingCategory).Some? && !RejectedName(draft.name) ==>
        error == old(error) && !page.isModalOpen && page.editingCategory == None &&
        page.categories == ReplaceWhere(old(page.categories), CategoryId, Some(old(page.editingCategory).value.id),
                                        Saved(old(page.editingCategory).value.id, draft)) &&
        store.stored == SavedStore(old(store.stored), old(page.editingCategory).value.id, draft)
    {
      var outcome := page.HandleSave(store, draft);
      if outcome.Resolved? {
        page.HandleCloseModal();
      } else {
        error := Some(MessageOr(outcome.message, SaveFallback));
      }
      isSaving := false;
    }
  }

  /** The modal renders nothing while closed. */
  predicate Rendered(page: CategoryPage)
    reads page
  {
    page.isModalOpen
  }
}
