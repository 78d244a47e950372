/** The categories tab: a kind filter over the user's categories and the
    add / edit / delete handlers' updates of the category list. The calls
    to the category service are abstract results; only what each handler
    does with a result is modelled. */
module CategoryTab {
  import opened Wrappers
  import opened Records
  import opened Seqs

  /** The categories shown under a kind selector: all of them for `Todos`,
      otherwise exactly those of the selected kind, in order. */
  function FilterCategories(categories: seq<Category>, selected: KindFilter): (r: seq<Category>)
    ensures selected == Todos ==> r == categories
    ensures IsSubsequence(r, categories)
    ensures selected.Only? ==> KeptExactly(r, categories, OfKindFn(selected.kind))
    ensures selected.Only? ==> forall c :: c in r <==> c in categories && c.tipo == selected.kind
  {
    match selected
    case Todos =>
      FilterAllKept((c: Category) => true, categories);
      FilterIsSubsequence((c: Category) => true, categories);
      categories
    case Only(k) =>
      FilterIsSubsequence(OfKindFn(k), categories);
      FilterKeptExactly(OfKindFn(k), categories);
      Filter(OfKindFn(k), categories)
  }

  /** The tab's state. `filtered` is what the list shows; the effect on
      `selected` and `categories` recomputes it after every change. */
  datatype State = State(
    categories: seq<Category>,
    newCategory: CategoryForm,
    editing: Option<Category>,
    deletingId: Option<int>,
    selected: KindFilter,
    filtered: seq<Category>,
    error: string)

  /** The shown list agrees with the selector. */
  ghost predicate Settled(st: State) {
    st.filtered == FilterCategories(st.categories, st.selected)
  }

  /** The tab as first rendered: selector on `Todos`, every category shown. */
  function Init(categories: seq<Category>): (st: State)
    ensures Settled(st)
    ensures st.selected == Todos && st.filtered == categories
    ensures st == State(categories, BlankCategoryForm, None, None, st.selected, st.filtered, "")
  {
    State(categories, BlankCategoryForm, None, None, Todos, categories, "")
  }

  /** Re-runs the filter effect after `categories` changed. */
  function Refresh(st: State): (st': State)
    ensures Settled(st')
    ensures st' == st.(filtered := st'.filtered)
  {
    st.(filtered := FilterCategories(st.categories, st.selected))
  }

  /** Choosing a kind in the selector. */
  function SelectKind(st: State, k: KindFilter): (st': State)
    ensures Settled(st') && st'.selected == k
    ensures st' == st.(selected := k, filtered := st'.filtered)
  {
    Refresh(st.(selected := k))
  }

  /** Adding: an empty user id does nothing; success appends the returned
      category at the end and resets the form; failure shows its message. */
  function AddCategory(st: State, userId: string, result: Result<Category, string>): (st': State)
    ensures userId == "" ==> st' == st
    ensures userId != "" && result.Ok? ==>
              && st' == st.(categories := st.categories + [result.value], newCategory := BlankCategoryForm,
                            filtered := st'.filtered)
              && Settled(st')
    ensures userId != "" && result.Err? ==> st' == st.(error := result.error)
  {
    if userId == "" then st
    else
      match result
      case Ok(added) => Refresh(st.(categories := st.categories + [added], newCategory := BlankCategoryForm))
      case Err(message) => st.(error := message)
  }

  /** Editing: nothing without a category under edit; success replaces by id
      and closes the edit; failure shows its message. */
  function EditCategory(st: State, result: Result<Category, string>): (st': State)
    ensures st.editing.None? ==> st' == st
    ensures st.editing.Some? && result.Ok? ==>
              && |st'.categories| == |st.categories|
              && (forall i :: 0 <= i < |st.categories| && st.categories[i].id != result.value.id ==>
                    st'.categories[i] == st.categories[i])
              && (forall i :: 0 <= i < |st.categories| && st.categories[i].id == result.value.id ==>
                    st'.categories[i] == result.value)
              && st' == st.(categories := st'.categories, editing := None, filtered := st'.filtered)
              && Settled(st')
    ensures st.editing.Some? && result.Err? ==> st' == st.(error := result.error)
  {
    if st.editing.None? then st
    else
      match result
      case Ok(updated) => Refresh(st.(categories := ReplaceById(st.categories, CategoryId, updated), editing := None))
      case Err(message) => st.(error := message)
  }

  /** `!deletingCategoryId`: absent, or the falsy id 0. */
  predicate HasDeletion(st: State) {
    st.deletingId.Some? && st.deletingId.value != 0
  }

  /** Deleting: nothing without a user or a chosen id; success removes every
      category with that id and keeps the others in order. */
  function DeleteCategory(st: State, userId: string, result: Result<(), string>): (st': State)
    ensures userId == "" || !HasDeletion(st) ==> st' == st
    ensures userId != "" && HasDeletion(st) && result.Ok? ==>
              && KeptExactly(st'.categories, st.categories, OtherIdFn(CategoryId, st.deletingId.value))
              && (forall c :: c in st'.categories <==> c in st.categories && c.id != st.deletingId.value)
              && st' == st.(categories := st'.categories, deletingId := None, filtered := st'.filtered)
              && Settled(st')
    ensures userId != "" && HasDeletion(st) && result.Err? ==> st' == st.(error := result.error)
  {
    if userId == "" || !HasDeletion(st) then st
    else
      match result
      case Ok(_) => Refresh(st.(categories := RemoveById(st.categories, CategoryId, st.deletingId.value), deletingId := None))
      case Err(message) => st.(error := message)
  }

  /** Every handler keeps the shown list in step with the selector. */
  lemma HandlersKeepSettled(st: State, userId: string, k: KindFilter,
                            added: Result<Category, string>, updated: Result<Category, string>,
                            deleted: Result<(), string>)
    requires Settled(st)
    ensures Settled(AddCategory(st, userId, added))
    ensures Settled(EditCategory(st, updated))
    ensures Settled(DeleteCategory(st, userId, deleted))
    ensures Settled(SelectKind(st, k))
  {
  }
}
