/**
 * The admin items table (`AdminItems.js`): the search by name or by id, the
 * category filter and the sort that `filteredAndSortedItems` computes on every
 * render, the sort header, the category name lookup, the local removal of a
 * deleted item and the availability label of the export.
 */
module AdminItemsPage {
  import opened Optional
  import opened Strings
  import opened Sorting

  /** A row of `GET /api/items`; `categoryId` is null for an item without a category. */
  datatype Item = Item(
    id: nat, name: string, price: int, categoryId: Option<nat>, sellerName: string, isPurchased: bool)

  datatype Category = Category(id: nat, name: string)

  /** The search-mode select. */
  datatype SearchBy = ByName | ById

  /**
   * The search test: by name, the lower-cased name includes the lower-cased term;
   * by id, the id's decimal text includes the term as typed.
   */
  predicate MatchesSearch(item: Item, searchBy: SearchBy, term: string) {
    match searchBy
    case ByName => ContainsIgnoringCase(item.name, term)
    case ById => Contains(NatToString(item.id), term)
  }

  /** An empty selection keeps every item; otherwise the item's category id, as text, is the selection. */
  predicate MatchesCategory(item: Item, selected: string) {
    selected == "" || (item.categoryId.Some? && NatToString(item.categoryId.value) == selected)
  }

  function Keep(searchBy: SearchBy, term: string, selected: string): Item -> bool {
    (item: Item) => MatchesSearch(item, searchBy, term) && MatchesCategory(item, selected)
  }

  /**
   * `a[sortField]`: the id, name, price or seller name; for any other field every
   * row reads `undefined`, so all rows compare equal.
   */
  function ItemKey(field: string, item: Item): Key {
    if field == "id" then Num(item.id)
    else if field == "name" then Text(item.name)
    else if field == "price" then Num(item.price)
    else if field == "seller_name" then Text(item.sellerName)
    else Num(0)
  }

  function KeyFor(field: string): Item -> Key {
    (item: Item) => ItemKey(field, item)
  }

  /** `filteredAndSortedItems`. */
  function Visible(items: seq<Item>, searchBy: SearchBy, term: string, selected: string, sort: SortState): seq<Item> {
    SortBy(Filter(items, Keep(searchBy, term, selected)), KeyFor(sort.field), sort.dir)
  }

  /**
   * The table holds each item that matches the search and the category, as often
   * as it occurs, ordered by the sort field in the sort direction; an empty term
   * matches every item in either mode.
   */
  lemma VisibleMeaning(items: seq<Item>, searchBy: SearchBy, term: string, selected: string, sort: SortState)
    ensures forall item :: item in Visible(items, searchBy, term, selected, sort) <==>
      item in items && MatchesSearch(item, searchBy, term) && MatchesCategory(item, selected)
    ensures SortedBy(Visible(items, searchBy, term, selected, sort), KeyFor(sort.field), sort.dir)
    ensures term == "" ==> forall item :: MatchesSearch(item, searchBy, term)
  {
    var v := Visible(items, searchBy, term, selected, sort);
    forall item ensures item in v <==> item in items && Keep(searchBy, term, selected)(item) {
      assert item in v <==> item in multiset(v);
      assert item in items <==> item in multiset(items);
    }
    if term == "" {
      forall item ensures MatchesSearch(item, searchBy, term) {
        assert OccursAt(ToLower(item.name), ToLower(term), 0);
        assert OccursAt(NatToString(item.id), term, 0);
      }
    }
  }

  /** The index of the first category with the id, as `Array.prototype.find` looks for it. */
  function FindCategory(categories: seq<Category>, id: Option<nat>): (r: Option<nat>)
    ensures r.Some? ==> r.value < |categories| && id == Some(categories[r.value].id)
    ensures r.Some? ==> forall j | 0 <= j < r.value :: id != Some(categories[j].id)
    ensures r.None? ==> forall j | 0 <= j < |categories| :: id != Some(categories[j].id)
    decreases |categories|
  {
    if categories == [] then None
    else if id == Some(categories[0].id) then Some(0)
    else
      var rest := FindCategory(categories[1..], id);
      if rest.Some? then Some(rest.value + 1) else None
  }

  /** `getCategoryName`: the name of the first category with the id, `"N/A"` when none has it. */
  function CategoryName(categories: seq<Category>, id: Option<nat>): string {
    var k := FindCategory(categories, id);
    if k.Some? then categories[k.value].name else "N/A"
  }

  /** An item without a category, or with one the list lacks, shows `"N/A"`; otherwise the first listed name. */
  lemma CategoryNameMeaning(categories: seq<Category>, id: Option<nat>)
    ensures (forall j | 0 <= j < |categories| :: id != Some(categories[j].id)) ==> CategoryName(categories, id) == "N/A"
    ensures forall j | 0 <= j < |categories| && id == Some(categories[j].id) &&
                       (forall i | 0 <= i < j :: id != Some(categories[i].id)) ::
      CategoryName(categories, id) == categories[j].name
  {
    var k := FindCategory(categories, id);
    if k.Some? {
      forall j | 0 <= j < |categories| && id == Some(categories[j].id) &&
                 (forall i | 0 <= i < j :: id != Some(categories[i].id))
        ensures CategoryName(categories, id) == categories[j].name
      {
        assert j == k.value;
      }
    }
  }

  /** The export's availability column. */
  function Availability(item: Item): (shown: string)
    ensures shown == "Sold Out" <==> item.isPurchased
    ensures shown == "Available" <==> !item.isPurchased
  {
    if item.isPurchased then "Sold Out" else "Available"
  }

  function NotId(itemId: nat): Item -> bool {
    (item: Item) => item.id != itemId
  }

  class Page {
    var items: seq<Item>
    var categories: seq<Category>
    var searchTerm: string
    var searchBy: SearchBy
    var selectedCategory: string
    var sort: SortState

    /** The rows the table renders. */
    function Shown(): seq<Item>
      reads this
    {
      Visible(items, searchBy, searchTerm, selectedCategory, sort)
    }

    constructor ()
      ensures items == [] && categories == [] && searchTerm == "" && searchBy == ByName
      ensures selectedCategory == "" && sort == SortState("name", Asc)
    {
      items := [];
      categories := [];
      searchTerm := "";
      searchBy := ByName;
      selectedCategory := "";
      sort := SortState("name", Asc);
    }

    /** `handleSort`: the same column flips its direction, a new one starts ascending. */
    method HandleSort(field: string)
      modifies this`sort
      ensures sort == Click(old(sort), field, Asc)
    {
      if sort.field == field {
        sort := SortState(field, Flip(sort.dir));
      } else {
        sort := SortState(field, Asc);
      }
    }

    /** `handleDeleteItem` after an OK response: every row with the id leaves the list, the others stay in order. */
    method ItemDeleted(itemId: nat)
      modifies this`items
      ensures items == Filter(old(items), NotId(itemId))
      ensures forall item :: item in items <==> item in old(items) && item.id != itemId
    {
      items := Filter(items, NotId(itemId));
      forall item ensures item in items <==> item in old(items) && item.id != itemId {
        FilterMembers(old(items), NotId(itemId), item);
      }
    }
  }
}
