/**
 * The browse page (`Products.js`): the unsold items kept after loading, the city
 * list offered in the filter panel, the wishlist heart toggle, the six filters of
 * `filteredItems` and the rules that clear them.
 *
 * The select and number inputs are modelled by what they hold: a category or
 * subcategory id (`None` for the empty option), a city (`""` for all cities) and
 * a whole-number price bound (`None` for an empty input).
 */
module ProductsPage {
  import opened Optional
  import opened Strings
  import opened Sorting

  /** A row of `GET /api/items`; category, subcategory and city may be null. */
  datatype Item = Item(
    id: nat, name: string, price: int, categoryId: Option<nat>, subcategoryId: Option<nat>,
    sellerCity: Option<string>, isSold: string)

  function Unsold(): Item -> bool {
    (item: Item) => item.isSold != "Yes"
  }

  /** `productsData.filter(item => item.is_sold !== "Yes")`. */
  lemma UnsoldMeaning(data: seq<Item>)
    ensures forall item :: item in Filter(data, Unsold()) <==> item in data && item.isSold != "Yes"
    ensures (forall item | item in data :: item.isSold != "Yes") ==> Filter(data, Unsold()) == data
  {
    forall item ensures item in Filter(data, Unsold()) <==> item in data && item.isSold != "Yes" {
      FilterMembers(data, Unsold(), item);
    }
    if forall item | item in data :: item.isSold != "Yes" {
      FilterKeepsAll(data, Unsold());
    }
  }

  /** `items.map(item => item.seller_city).filter(Boolean)`: the cities that are neither null nor empty. */
  function SellerCities(items: seq<Item>): (r: seq<string>)
    ensures forall c :: c in r <==> c != "" && exists item | item in items :: item.sellerCity == Some(c)
    decreases |items|
  {
    if items == [] then []
    else
      var rest := SellerCities(items[1..]);
      assert forall item | item in items[1..] :: item in items;
      assert forall item | item in items :: item == items[0] || item in items[1..];
      var city := items[0].sellerCity;
      (if city.Some? && city.value != "" then [city.value] else []) + rest
  }

  /** `[...new Set(cities)]`: each city once, where it first occurs. */
  function Distinct(s: seq<string>): (r: seq<string>)
    ensures forall c :: multiset(r)[c] == if c in s then 1 else 0
    decreases |s|
  {
    if s == [] then []
    else
      var init := s[..|s| - 1];
      var last := s[|s| - 1];
      assert s == init + [last];
      var r := Distinct(init);
      assert last in r <==> last in multiset(r);
      if last in r then r else r + [last]
  }

  function CityKey(): string -> Key {
    (c: string) => Text(c)
  }

  /** The city options: the distinct seller cities, sorted as `Array.prototype.sort` sorts strings. */
  function Cities(items: seq<Item>): seq<string> {
    SortBy(Distinct(SellerCities(items)), CityKey(), Asc)
  }

  /** Two equal entries at different places count twice. */
  lemma RepeatCountsTwice(s: seq<string>, i: nat, j: nat)
    requires i < j < |s| && s[i] == s[j]
    ensures multiset(s)[s[i]] >= 2
  {
    assert s == s[..j] + s[j..];
    assert s[..j][i] == s[i];
    assert s[j..][0] == s[i];
    assert multiset(s[..j])[s[i]] >= 1;
    assert multiset(s[j..])[s[i]] >= 1;
  }

  /**
   * The city list holds exactly the non-empty seller cities of the items, each once,
   * in strictly increasing order.
   */
  lemma CitiesMeaning(items: seq<Item>)
    ensures forall c :: c in Cities(items) <==> c != "" && exists item | item in items :: item.sellerCity == Some(c)
    ensures forall i, j | 0 <= i < j < |Cities(items)| :: TextLess(Cities(items)[i], Cities(items)[j])
  {
    var r := Cities(items);
    var all := SellerCities(items);
    forall c ensures c in r <==> c in all {
      assert c in r <==> c in multiset(r);
    }
    forall i, j | 0 <= i < j < |r| ensures TextLess(r[i], r[j]) {
      if r[i] == r[j] {
        RepeatCountsTwice(r, i, j);
        assert false;
      }
      assert InOrder(Asc, Text(r[i]), Text(r[j]));
      TextLessTotal(r[i], r[j]);
    }
  }

  /** The filter panel and the search box. */
  datatype Filters = Filters(
    searchTerm: string, category: Option<nat>, subcategory: Option<nat>, city: string,
    minPrice: Option<int>, maxPrice: Option<int>)

  /** The six tests of `filteredItems`; an empty filter lets every item through. */
  predicate Passes(item: Item, f: Filters) {
    && ContainsIgnoringCase(item.name, f.searchTerm)
    && (f.category.None? || item.categoryId == f.category)
    && (f.subcategory.None? || item.subcategoryId == f.subcategory)
    && (f.city == "" || item.sellerCity == Some(f.city))
    && (f.minPrice.None? || item.price >= f.minPrice.value)
    && (f.maxPrice.None? || item.price <= f.maxPrice.value)
  }

  function Keep(f: Filters): Item -> bool {
    (item: Item) => Passes(item, f)
  }

  /** `filteredItems`. */
  function FilteredItems(items: seq<Item>, f: Filters): seq<Item> {
    Filter(items, Keep(f))
  }

  /** The filters `Reset Filters` leaves: everything cleared but the search term. */
  function Cleared(searchTerm: string): Filters {
    Filters(searchTerm, None, None, "", None, None)
  }

  /**
   * An item is shown exactly when it passes all six filters, as often as it is
   * listed; with the panel cleared and no search term, every item is shown in list
   * order, and with the panel cleared the search alone decides.
   */
  lemma FilteredItemsMeaning(items: seq<Item>, f: Filters)
    ensures forall item :: multiset(FilteredItems(items, f))[item] == if Passes(item, f) then multiset(items)[item] else 0
    ensures forall item :: item in FilteredItems(items, f) <==> item in items && Passes(item, f)
    ensures f == Cleared("") ==> FilteredItems(items, f) == items
    ensures f == Cleared(f.searchTerm) ==>
      forall item :: Passes(item, f) <==> ContainsIgnoringCase(item.name, f.searchTerm)
  {
    forall item ensures item in FilteredItems(items, f) <==> item in items && Passes(item, f) {
      FilterMembers(items, Keep(f), item);
    }
    if f == Cleared("") {
      forall item | item in items ensures Keep(f)(item) {
        assert OccursAt(ToLower(item.name), ToLower(""), 0);
      }
      FilterKeepsAll(items, Keep(f));
    }
  }

  /** A price range whose minimum is above its maximum shows nothing. */
  lemma EmptyPriceRange(items: seq<Item>, f: Filters)
    requires f.minPrice.Some? && f.maxPrice.Some? && f.minPrice.value > f.maxPrice.value
    ensures FilteredItems(items, f) == []
  {
    var r := FilteredItems(items, f);
    assert forall item :: multiset(r)[item] == 0;
    assert multiset(r) == multiset{};
  }

  /**
   * The wishlist after a toggle answer: the item leaves it when the server says it
   * was removed and joins it otherwise; no other item moves.
   */
  function Toggled(wishlist: set<nat>, itemId: nat, removed: bool): (r: set<nat>)
    ensures itemId in r <==> !removed
    ensures forall other | other != itemId :: other in r <==> other in wishlist
  {
    if removed then wishlist - {itemId} else wishlist + {itemId}
  }

  /** Adding then removing an item leaves the wishlist as it was, less that item. */
  lemma ToggleBack(wishlist: set<nat>, itemId: nat)
    ensures Toggled(Toggled(wishlist, itemId, false), itemId, true) == wishlist - {itemId}
    ensures itemId !in wishlist ==> Toggled(Toggled(wishlist, itemId, false), itemId, true) == wishlist
  {
  }

  /** What `POST /api/wishlist/toggle` answered, or that the request never got an answer. */
  datatype WishAnswer = Forbidden | NotOk | Toggle(removed: bool) | NoAnswer

  /** `alert` when no token is stored. */
  const LogInToWishMessage := "Please log in to add items to wishlist"
  const LoginRoute := "/login"

  class Page {
    var items: seq<Item>
    var cities: seq<string>
    var subcategoryIds: seq<nat>
    var filters: Filters
    var wishlist: set<nat>
    var token: Option<string>
    var route: Option<string>
    var alert: Option<string>
    var error: Option<string>
    var isLoading: bool

    /** The grid the page renders. */
    function Shown(): seq<Item>
      reads this
    {
      FilteredItems(items, filters)
    }

    /** The city options match the items, as `fetchInitialData` sets them. */
    predicate CitiesMatch()
      reads this
    {
      cities == Cities(items)
    }

    constructor (storedToken: Option<string>)
      ensures items == [] && cities == [] && subcategoryIds == [] && filters == Cleared("")
      ensures wishlist == {} && token == storedToken && alert == None && error == None && isLoading
      ensures route == (if storedToken.None? then Some(LoginRoute) else None)
      ensures CitiesMatch()
    {
      items := [];
      cities := [];
      subcategoryIds := [];
      filters := Cleared("");
      wishlist := {};
      token := storedToken;
      route := if storedToken.None? then Some(LoginRoute) else None;
      alert := None;
      error := None;
      isLoading := true;
    }

    /**
     * `fetchInitialData` with both lists fetched: the unsold items are kept, the city
     * list rebuilt from them, and the wishlist replaced when it was fetched too.
     */
    method Loaded(data: seq<Item>, wished: Option<seq<nat>>)
      modifies this`items, this`cities, this`wishlist, this`isLoading
      ensures items == Filter(data, Unsold()) && CitiesMatch()
      ensures wished.Some? ==> wishlist == set id | id in wished.value
      ensures wished.None? ==> wishlist == old(wishlist)
      ensures !isLoading
    {
      items := Filter(data, Unsold());
      cities := Cities(items);
      if wished.Some? {
        wishlist := set id | id in wished.value;
      }
      isLoading := false;
    }

    /** `fetchInitialData` when a request failed: the error page with the reason. */
    method LoadFailed(reason: string)
      modifies this`error, this`isLoading
      ensures error == Some("Failed to load data. Please try again. Details: " + reason)
      ensures !isLoading
    {
      error := Some("Failed to load data. Please try again. Details: " + reason);
      isLoading := false;
    }

    method SetSearchTerm(term: string)
      modifies this`filters
      ensures filters == old(filters).(searchTerm := term)
    {
      filters := filters.(searchTerm := term);
    }

    /**
     * The category select: the subcategory choice is cleared, and with no category
     * the subcategory options are emptied at once (otherwise they are fetched).
     */
    method SetCategory(category: Option<nat>)
      modifies this`filters, this`subcategoryIds
      ensures filters == old(filters).(category := category, subcategory := None)
      ensures category.None? ==> subcategoryIds == []
      ensures category.Some? ==> subcategoryIds == old(subcategoryIds)
    {
      filters := filters.(category := category, subcategory := None);
      if category.None? {
        subcategoryIds := [];
      }
    }

    /** The subcategories of the chosen category arrived. */
    method SubcategoriesLoaded(ids: seq<nat>)
      modifies this`subcategoryIds
      ensures subcategoryIds == ids
    {
      subcategoryIds := ids;
    }

    method SetSubcategory(subcategory: Option<nat>)
      modifies this`filters
      ensures filters == old(filters).(subcategory := subcategory)
    {
      filters := filters.(subcategory := subcategory);
    }

    method SetCity(city: string)
      modifies this`filters
      ensures filters == old(filters).(city := city)
    {
      filters := filters.(city := city);
    }

    method SetPriceRange(minPrice: Option<int>, maxPrice: Option<int>)
      modifies this`filters
      ensures filters == old(filters).(minPrice := minPrice, maxPrice := maxPrice)
    {
      filters := filters.(minPrice := minPrice, maxPrice := maxPrice);
    }

    /** `Reset Filters`: category, subcategory, city and price range are cleared; the search term stays. */
    method ResetFilters()
      modifies this`filters
      ensures filters == Cleared(old(filters).searchTerm)
    {
      filters := Filters(filters.searchTerm, None, None, "", None, None);
    }

    /**
     * `handleWishlistToggle`: without a token the user is asked to log in; a 403
     * drops the token and goes to the login page; an OK answer toggles the item in
     * a copy of the wishlist; anything else leaves the page as it was.
     */
    method HandleWishlistToggle(itemId: nat, answer: WishAnswer)
      modifies this`wishlist, this`token, this`route, this`alert
      ensures old(token).None? ==> alert == Some(LogInToWishMessage) && wishlist == old(wishlist) && token == old(token) && route == old(route)
      ensures old(token).Some? && answer.Forbidden? ==> token == None && route == Some(LoginRoute) && wishlist == old(wishlist)
      ensures old(token).Some? && answer.Toggle? ==> wishlist == Toggled(old(wishlist), itemId, answer.removed)
      ensures old(token).Some? && !answer.Toggle? && !answer.Forbidden? ==> wishlist == old(wishlist) && token == old(token)
      ensures old(token).Some? && !answer.Forbidden? ==> token == old(token) && route == old(route)
      ensures old(token).Some? ==> alert == old(alert)
    {
      if token.None? {
        alert := Some(LogInToWishMessage);
        return;
      }
      match answer {
        case Forbidden =>
          token := None;
          route := Some(LoginRoute);
        case Toggle(removed) =>
          var copy := wishlist;
          if removed {
            copy := copy - {itemId};
          } else {
            copy := copy + {itemId};
          }
          wishlist := copy;
        case NotOk =>
        case NoAnswer =>
      }
    }
  }
}
