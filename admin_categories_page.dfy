/**
 * The admin category tree (`AdminCategories.js`): the category list with a
 * subcategory list per category that is loaded on demand and dropped (set to
 * null) whenever it may be stale, the expansion flags that decide when to load
 * it, and the add, edit and delete handlers that keep that cache.
 *
 * A request's answer is a parameter of the handler that awaits it: `ok` for an
 * OK status, and the rows of a list that was fetched.
 */
module AdminCategoriesPage {
  import opened Optional
  import opened Strings
  import opened Sorting

  datatype Subcategory = Subcategory(id: nat, name: string)

  /** A row of `GET /api/categories`. */
  datatype CategoryRow = CategoryRow(id: nat, name: string)

  /** A category of the page; `subcategories` is `None` (null) until its list is loaded. */
  datatype Category = Category(id: nat, name: string, subcategories: Option<seq<Subcategory>>)

  /** `data.map(category => ({ ...category, subcategories: null }))`. */
  function Unloaded(rows: seq<CategoryRow>): (r: seq<Category>)
    ensures |r| == |rows|
    ensures forall i | 0 <= i < |rows| :: r[i] == Category(rows[i].id, rows[i].name, None)
  {
    seq(|rows|, i requires 0 <= i < |rows| => Category(rows[i].id, rows[i].name, None))
  }

  function SameId(categoryId: nat): Category -> bool {
    (c: Category) => c.id == categoryId
  }

  function SetList(list: Option<seq<Subcategory>>): Category -> Category {
    (c: Category) => c.(subcategories := list)
  }

  function SetName(name: string): Category -> Category {
    (c: Category) => c.(name := name)
  }

  /** The categories with the id get the list `list`; every other category is kept as it was. */
  function WithList(categories: seq<Category>, categoryId: nat, list: Option<seq<Subcategory>>): (r: seq<Category>)
    ensures |r| == |categories|
    ensures forall i | 0 <= i < |categories| ::
      r[i] == if categories[i].id == categoryId then categories[i].(subcategories := list) else categories[i]
  {
    MapWhere(categories, SameId(categoryId), SetList(list))
  }

  /** `category.id === categoryId ? { ...category, name: newName } : category`. */
  function Renamed(categories: seq<Category>, categoryId: nat, newName: string): (r: seq<Category>)
    ensures |r| == |categories|
    ensures forall i | 0 <= i < |categories| ::
      r[i] == if categories[i].id == categoryId then categories[i].(name := newName) else categories[i]
  {
    MapWhere(categories, SameId(categoryId), SetName(newName))
  }

  function SubHit(subcategoryId: nat): Subcategory -> bool {
    (s: Subcategory) => s.id == subcategoryId
  }

  function SubRename(newName: string): Subcategory -> Subcategory {
    (s: Subcategory) => s.(name := newName)
  }

  /** The renaming inside one category: a loaded list is renamed, a null one stays null. */
  function RenameInside(c: Category, subcategoryId: nat, newName: string): Category {
    if c.subcategories.Some? then
      c.(subcategories := Some(MapWhere(c.subcategories.value, SubHit(subcategoryId), SubRename(newName))))
    else c
  }

  /** The list after `handleEditSubcategory` rewrote the loaded subcategory lists. */
  function SubRenamed(categories: seq<Category>, subcategoryId: nat, newName: string): (r: seq<Category>)
    ensures |r| == |categories|
  {
    seq(|categories|, i requires 0 <= i < |categories| => RenameInside(categories[i], subcategoryId, newName))
  }

  /**
   * A subcategory rename keeps every category's id, name and loading state: a list
   * that was null stays null, and in a loaded list exactly the subcategories with
   * the id take the new name.
   */
  lemma SubRenamedMeaning(categories: seq<Category>, subcategoryId: nat, newName: string)
    ensures forall i | 0 <= i < |categories| ::
      var c, d := categories[i], SubRenamed(categories, subcategoryId, newName)[i];
      d.id == c.id && d.name == c.name && (d.subcategories.None? <==> c.subcategories.None?)
    ensures forall i, j | 0 <= i < |categories| && categories[i].subcategories.Some? && 0 <= j < |categories[i].subcategories.value| ::
      var s := categories[i].subcategories.value[j];
      SubRenamed(categories, subcategoryId, newName)[i].subcategories.value[j] ==
        if s.id == subcategoryId then Subcategory(s.id, newName) else s
  {
  }

  /** `hasSubcategories`: the list is loaded and not empty. */
  predicate HasSubcategories(c: Category) {
    c.subcategories.Some? && |c.subcategories.value| > 0
  }

  /** A freshly fetched category has no list loaded, so it shows no subcategories. */
  lemma HasSubcategoriesMeaning(rows: seq<CategoryRow>)
    ensures forall i | 0 <= i < |rows| :: !HasSubcategories(Unloaded(rows)[i])
  {
  }

  /** The index of the first category with the id, as `categories.find(cat => cat.id === categoryId)`. */
  function FindCategory(categories: seq<Category>, categoryId: nat): (r: Option<nat>)
    ensures r.Some? ==> r.value < |categories| && categories[r.value].id == categoryId
    ensures r.Some? ==> forall j | 0 <= j < r.value :: categories[j].id != categoryId
    ensures r.None? ==> forall j | 0 <= j < |categories| :: categories[j].id != categoryId
    decreases |categories|
  {
    if categories == [] then None
    else if categories[0].id == categoryId then Some(0)
    else
      var rest := FindCategory(categories[1..], categoryId);
      if rest.Some? then Some(rest.value + 1) else None
  }

  /** `cat.subcategories?.some(sub => sub.id === subcategoryId)`. */
  predicate Holds(c: Category, subcategoryId: nat) {
    c.subcategories.Some? && exists s | s in c.subcategories.value :: s.id == subcategoryId
  }

  /** The index of the first category whose loaded list holds the subcategory. */
  function FindHolder(categories: seq<Category>, subcategoryId: nat): (r: Option<nat>)
    ensures r.Some? ==> r.value < |categories| && Holds(categories[r.value], subcategoryId)
    ensures r.Some? ==> forall j | 0 <= j < r.value :: !Holds(categories[j], subcategoryId)
    ensures r.None? ==> forall j | 0 <= j < |categories| :: !Holds(categories[j], subcategoryId)
    decreases |categories|
  {
    if categories == [] then None
    else if Holds(categories[0], subcategoryId) then Some(0)
    else
      var rest := FindHolder(categories[1..], subcategoryId);
      if rest.Some? then Some(rest.value + 1) else None
  }

  /** `expandedCategories[categoryId]`, with a missing entry read as `undefined`. */
  predicate Expanded(expanded: map<nat, bool>, categoryId: nat) {
    categoryId in expanded && expanded[categoryId]
  }

  /**
   * Whether `toggleCategoryExpansion` loads subcategories: the category was
   * collapsed, and the first category with the id has a null list.
   */
  predicate NeedsFetch(categories: seq<Category>, expanded: map<nat, bool>, categoryId: nat) {
    var k := FindCategory(categories, categoryId);
    !Expanded(expanded, categoryId) && k.Some? && categories[k.value].subcategories.None?
  }

  /**
   * The cache rules: a collapsed category whose list was just dropped is loaded again
   * when expanded, one whose list was just loaded is not, and an expanded one never is.
   */
  lemma CacheRules(categories: seq<Category>, expanded: map<nat, bool>, categoryId: nat, list: seq<Subcategory>)
    ensures (exists i | 0 <= i < |categories| :: categories[i].id == categoryId) && !Expanded(expanded, categoryId) ==>
      NeedsFetch(WithList(categories, categoryId, None), expanded, categoryId)
    ensures !NeedsFetch(WithList(categories, categoryId, Some(list)), expanded, categoryId)
    ensures Expanded(expanded, categoryId) ==> !NeedsFetch(categories, expanded, categoryId)
  {
    var dropped := WithList(categories, categoryId, None);
    var k := FindCategory(dropped, categoryId);
    if exists i | 0 <= i < |categories| :: categories[i].id == categoryId {
      var i :| 0 <= i < |categories| && categories[i].id == categoryId;
      assert dropped[i].id == categoryId;
    }
    var loaded := WithList(categories, categoryId, Some(list));
    var m := FindCategory(loaded, categoryId);
    if m.Some? {
      assert loaded[m.value].subcategories == Some(list);
    }
  }

  /** Two toggles give a category back its expansion state. */
  lemma ToggleTwice(expanded: map<nat, bool>, categoryId: nat)
    ensures Expanded(expanded[categoryId := !Expanded(expanded, categoryId)], categoryId) == !Expanded(expanded, categoryId)
    ensures var once := expanded[categoryId := !Expanded(expanded, categoryId)];
      Expanded(once[categoryId := !Expanded(once, categoryId)], categoryId) == Expanded(expanded, categoryId)
  {
  }

  const EmptyCategoryMessage := "Category name cannot be empty"
  const SubcategoryRequiredMessage := "Subcategory name and category selection are required"
  const EmptySubcategoryMessage := "Subcategory name cannot be empty"

  class Page {
    var categories: seq<Category>
    var expanded: map<nat, bool>
    var loading: map<nat, bool>
    var newCategoryName: string
    var newSubcategoryName: string
    var newSubcategoryCategory: Option<nat>
    var editingCategory: Option<nat>
    var editingSubcategory: Option<nat>
    var alert: Option<string>

    constructor ()
      ensures categories == [] && expanded == map[] && loading == map[]
      ensures newCategoryName == "" && newSubcategoryName == "" && newSubcategoryCategory == None
      ensures editingCategory == None && editingSubcategory == None && alert == None
    {
      categories := [];
      expanded := map[];
      loading := map[];
      newCategoryName := "";
      newSubcategoryName := "";
      newSubcategoryCategory := None;
      editingCategory := None;
      editingSubcategory := None;
      alert := None;
    }

    /** `fetchCategories` after an OK response: every list starts out null. */
    method CategoriesLoaded(rows: seq<CategoryRow>)
      modifies this`categories
      ensures categories == Unloaded(rows)
      ensures forall i | 0 <= i < |categories| :: categories[i].subcategories.None?
    {
      categories := Unloaded(rows);
    }

    /** `fetchSubcategories` starts: the category is marked as loading. */
    method SubcategoriesRequested(categoryId: nat)
      modifies this`loading
      ensures loading == old(loading)[categoryId := true]
    {
      loading := loading[categoryId := true];
    }

    /**
     * `fetchSubcategories` ends: on an OK answer the categories with the id take the
     * list, every other category is left alone; either way loading is over.
     */
    method SubcategoriesArrived(categoryId: nat, answer: Option<seq<Subcategory>>)
      modifies this`categories, this`loading
      ensures answer.Some? ==> categories == WithList(old(categories), categoryId, answer)
      ensures answer.None? ==> categories == old(categories)
      ensures loading == old(loading)[categoryId := false]
    {
      if answer.Some? {
        categories := WithList(categories, categoryId, answer);
      }
      loading := loading[categoryId := false];
    }

    /**
     * `toggleCategoryExpansion`: the flag flips, and the subcategories are to be
     * fetched exactly when the category is being expanded and its list is null.
     */
    method ToggleExpansion(categoryId: nat) returns (fetch: bool)
      modifies this`expanded
      ensures expanded == old(expanded)[categoryId := !Expanded(old(expanded), categoryId)]
      ensures fetch == NeedsFetch(categories, old(expanded), categoryId)
    {
      var isExpanding := !(categoryId in expanded && expanded[categoryId]);
      expanded := expanded[categoryId := isExpanding];
      fetch := false;
      if isExpanding {
        var k := FindCategory(categories, categoryId);
        if k.Some? && categories[k.value].subcategories.None? {
          fetch := true;
        }
      }
    }

    /**
     * `handleAddCategory`: a blank name is refused with an alert and nothing is
     * sent; after an OK answer the name box is emptied (the list is then reloaded
     * with `CategoriesLoaded`).
     */
    method HandleAddCategory(ok: bool) returns (sent: bool)
      modifies this`newCategoryName, this`alert
      ensures sent <==> !Blank(old(newCategoryName))
      ensures !sent ==> alert == Some(EmptyCategoryMessage) && newCategoryName == old(newCategoryName)
      ensures sent ==> alert == old(alert) && newCategoryName == (if ok then "" else old(newCategoryName))
    {
      if Blank(newCategoryName) {
        alert := Some(EmptyCategoryMessage);
        return false;
      }
      sent := true;
      if ok {
        newCategoryName := "";
      }
    }

    /**
     * `handleAddSubcategory`: a blank name or no chosen category is refused; after
     * an OK answer the chosen category's list is dropped and the form emptied.
     */
    method HandleAddSubcategory(ok: bool) returns (sent: bool)
      modifies this`categories, this`newSubcategoryName, this`newSubcategoryCategory, this`alert
      ensures sent <==> !Blank(old(newSubcategoryName)) && old(newSubcategoryCategory).Some?
      ensures !sent ==> alert == Some(SubcategoryRequiredMessage) && categories == old(categories)
      ensures sent ==> alert == old(alert)
      ensures sent && ok ==> categories == WithList(old(categories), old(newSubcategoryCategory).value, None)
      ensures sent && ok ==> newSubcategoryName == "" && newSubcategoryCategory == None
      ensures !(sent && ok) ==>
        newSubcategoryName == old(newSubcategoryName) && newSubcategoryCategory == old(newSubcategoryCategory)
      ensures sent && !ok ==> categories == old(categories)
    {
      if Blank(newSubcategoryName) || newSubcategoryCategory.None? {
        alert := Some(SubcategoryRequiredMessage);
        return false;
      }
      sent := true;
      if ok {
        categories := WithList(categories, newSubcategoryCategory.value, None);
        newSubcategoryName := "";
        newSubcategoryCategory := None;
      }
    }

    /**
     * `handleEditCategory`: a blank name is refused; after an OK answer the
     * categories with the id are renamed and editing ends.
     */
    method HandleEditCategory(categoryId: nat, newName: string, ok: bool) returns (sent: bool)
      modifies this`categories, this`editingCategory, this`alert
      ensures sent <==> !Blank(newName)
      ensures !sent ==> alert == Some(EmptyCategoryMessage) && categories == old(categories)
      ensures !sent ==> editingCategory == old(editingCategory)
      ensures sent ==> alert == old(alert)
      ensures sent && ok ==> categories == Renamed(old(categories), categoryId, newName) && editingCategory == None
      ensures sent && !ok ==> categories == old(categories) && editingCategory == old(editingCategory)
    {
      if Blank(newName) {
        alert := Some(EmptyCategoryMessage);
        return false;
      }
      sent := true;
      if ok {
        categories := Renamed(categories, categoryId, newName);
        editingCategory := None;
      }
    }

    /**
     * `handleEditSubcategory`: a blank name is refused; after an OK answer the
     * loaded lists are rewritten and editing ends.
     */
    method HandleEditSubcategory(subcategoryId: nat, newName: string, ok: bool) returns (sent: bool)
      modifies this`categories, this`editingSubcategory, this`alert
      ensures sent <==> !Blank(newName)
      ensures !sent ==> alert == Some(EmptySubcategoryMessage) && categories == old(categories)
      ensures !sent ==> editingSubcategory == old(editingSubcategory)
      ensures sent ==> alert == old(alert)
      ensures sent && ok ==> categories == SubRenamed(old(categories), subcategoryId, newName) && editingSubcategory == None
      ensures sent && !ok ==> categories == old(categories) && editingSubcategory == old(editingSubcategory)
    {
      if Blank(newName) {
        alert := Some(EmptySubcategoryMessage);
        return false;
      }
      sent := true;
      if ok {
        categories := SubRenamed(categories, subcategoryId, newName);
        editingSubcategory := None;
      }
    }

    /**
     * `handleDeleteSubcategory` after a confirmed, OK delete: the list of the first
     * category holding the subcategory is dropped (for every category with its id);
     * when no loaded list holds it, nothing changes.
     */
    method SubcategoryDeleted(subcategoryId: nat)
      modifies this`categories
      ensures var k := FindHolder(old(categories), subcategoryId);
        categories == if k.Some? then WithList(old(categories), old(categories)[k.value].id, None) else old(categories)
    {
      var k := FindHolder(categories, subcategoryId);
      if k.Some? {
        categories := WithList(categories, categories[k.value].id, None);
      }
    }
  }
}
