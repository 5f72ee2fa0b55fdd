/**
 * The admin purchases table (`AdminPurchase.js`): the search, status filter and
 * sort that `applyFilters` runs over a copy of the purchases, the sort header, the
 * status update that rewrites only the matching rows, and the status badge class.
 *
 * Dates are timestamps. The date-window filter reads the wall clock and is not
 * part of this model.
 */
module AdminPurchasePage {
  import opened Optional
  import opened Strings
  import opened Sorting

  /** A row of `GET /api/purchases`; `orderId` is the order's id again. */
  datatype Purchase = Purchase(
    id: nat, orderId: nat, date: int, amount: int, customerName: string, productName: string,
    status: string)

  /** `orderId.toString().toLowerCase().includes(term)` or the same on the customer or product name. */
  predicate SearchHit(p: Purchase, term: string) {
    ContainsIgnoringCase(NatToString(p.orderId), term) ||
    ContainsIgnoringCase(p.customerName, term) ||
    ContainsIgnoringCase(p.productName, term)
  }

  function SearchKeep(term: string): Purchase -> bool {
    (p: Purchase) => SearchHit(p, term)
  }

  function StatusKeep(status: string): Purchase -> bool {
    (p: Purchase) => p.status == status
  }

  /**
   * The value the comparator reads for the sort field: the date, the amount, the
   * order id (`orderId || id || ""`, where the empty string compares with numbers
   * as 0) or the customer name; any other field sorts by date.
   */
  function PurchaseKey(field: string, p: Purchase): Key {
    if field == "amount" then Num(p.amount)
    else if field == "orderId" then
      (if p.orderId != 0 then Num(p.orderId) else if p.id != 0 then Num(p.id) else Num(0))
    else if field == "customerName" then Text(p.customerName)
    else Num(p.date)
  }

  function KeyFor(field: string): Purchase -> Key {
    (p: Purchase) => PurchaseKey(field, p)
  }

  /** An empty search term and the status `"all"` let every purchase through. */
  predicate Passes(p: Purchase, searchTerm: string, statusFilter: string) {
    (searchTerm == "" || SearchHit(p, searchTerm)) && (statusFilter == "all" || p.status == statusFilter)
  }

  /** The table `applyFilters` produces. */
  function Visible(purchases: seq<Purchase>, searchTerm: string, statusFilter: string, sort: SortState): seq<Purchase> {
    var searched := if searchTerm != "" then Filter(purchases, SearchKeep(searchTerm)) else purchases;
    var kept := if statusFilter != "all" then Filter(searched, StatusKeep(statusFilter)) else searched;
    SortBy(kept, KeyFor(sort.field), sort.dir)
  }

  /**
   * The table holds each purchase that passes the search and the status filter, as
   * often as it occurs among the purchases, and nothing else, ordered by the sort
   * field in the sort direction.
   */
  lemma VisibleMeaning(purchases: seq<Purchase>, searchTerm: string, statusFilter: string, sort: SortState)
    ensures forall p ::
      multiset(Visible(purchases, searchTerm, statusFilter, sort))[p] ==
      (if Passes(p, searchTerm, statusFilter) then multiset(purchases)[p] else 0)
    ensures forall p :: p in Visible(purchases, searchTerm, statusFilter, sort) <==>
      p in purchases && Passes(p, searchTerm, statusFilter)
    ensures SortedBy(Visible(purchases, searchTerm, statusFilter, sort), KeyFor(sort.field), sort.dir)
  {
    var searched := if searchTerm != "" then Filter(purchases, SearchKeep(searchTerm)) else purchases;
    var kept := if statusFilter != "all" then Filter(searched, StatusKeep(statusFilter)) else searched;
    var v := Visible(purchases, searchTerm, statusFilter, sort);
    assert multiset(v) == multiset(kept);
    forall p ensures multiset(v)[p] == (if Passes(p, searchTerm, statusFilter) then multiset(purchases)[p] else 0) {
      assert multiset(searched)[p] == (if searchTerm == "" || SearchHit(p, searchTerm) then multiset(purchases)[p] else 0);
      assert multiset(kept)[p] == (if statusFilter == "all" || p.status == statusFilter then multiset(searched)[p] else 0);
    }
    forall p ensures p in v <==> p in purchases && Passes(p, searchTerm, statusFilter) {
      assert p in v <==> p in multiset(v);
      assert p in purchases <==> p in multiset(purchases);
    }
  }

  /** The product-name header and any unknown field order the table by date. */
  lemma OtherFieldsSortByDate(field: string, p: Purchase)
    requires field !in {"amount", "orderId", "customerName"}
    ensures PurchaseKey(field, p) == Num(p.date)
    ensures PurchaseKey("productName", p) == Num(p.date)
  {
  }

  /** `p.id === purchaseId || p.orderId === purchaseId`. */
  predicate Targets(p: Purchase, purchaseId: nat) {
    p.id == purchaseId || p.orderId == purchaseId
  }

  function SetStatus(purchaseId: nat, newStatus: string): Purchase -> Purchase {
    (p: Purchase) => if Targets(p, purchaseId) then p.(status := newStatus) else p
  }

  function Hit(purchaseId: nat): Purchase -> bool {
    (p: Purchase) => Targets(p, purchaseId)
  }

  /** The list after a status update: the rows of the purchase carry the new status, the rest are as they were. */
  function WithStatus(rows: seq<Purchase>, purchaseId: nat, newStatus: string): (r: seq<Purchase>)
    ensures |r| == |rows|
    ensures forall i | 0 <= i < |rows| ::
      r[i] == if Targets(rows[i], purchaseId) then rows[i].(status := newStatus) else rows[i]
  {
    MapWhere(rows, Hit(purchaseId), SetStatus(purchaseId, newStatus))
  }

  /**
   * A status update touches nothing but the status of the targeted rows, and
   * repeating it changes nothing more.
   */
  lemma WithStatusOnlyTargets(rows: seq<Purchase>, purchaseId: nat, newStatus: string)
    ensures forall i | 0 <= i < |rows| ::
      WithStatus(rows, purchaseId, newStatus)[i].(status := rows[i].status) == rows[i]
    ensures forall i | 0 <= i < |rows| && Targets(rows[i], purchaseId) ::
      WithStatus(rows, purchaseId, newStatus)[i].status == newStatus
    ensures WithStatus(WithStatus(rows, purchaseId, newStatus), purchaseId, newStatus) ==
            WithStatus(rows, purchaseId, newStatus)
  {
    var once := WithStatus(rows, purchaseId, newStatus);
    var twice := WithStatus(once, purchaseId, newStatus);
    forall i | 0 <= i < |rows| ensures twice[i] == once[i] {
      assert Targets(once[i], purchaseId) == Targets(rows[i], purchaseId);
    }
  }

  /** `getStatusColor`: the badge class of a payment status. */
  function StatusClass(status: string): (c: string)
    ensures c == "zephyrix-status-completed" <==> status == "Success"
    ensures c == "zephyrix-status-cancelled" <==> status == "Failed"
    ensures c == "" <==> status != "Success" && status != "Failed"
  {
    if status == "Success" then "zephyrix-status-completed"
    else if status == "Failed" then "zephyrix-status-cancelled"
    else ""
  }

  class Page {
    var purchases: seq<Purchase>
    var filtered: seq<Purchase>
    var searchTerm: string
    var statusFilter: string
    var sort: SortState
    var selected: Option<Purchase>

    /** The table is what the filters make of the purchases, as `useEffect` keeps it. */
    predicate Shown()
      reads this
    {
      filtered == Visible(purchases, searchTerm, statusFilter, sort)
    }

    constructor ()
      ensures purchases == [] && searchTerm == "" && statusFilter == "all"
      ensures sort == SortState("date", Desc) && selected == None
      ensures Shown()
    {
      purchases := [];
      filtered := [];
      searchTerm := "";
      statusFilter := "all";
      sort := SortState("date", Desc);
      selected := None;
    }

    /**
     * `applyFilters`: a copy of the purchases narrowed by the search term, then by
     * the status, then sorted. The purchases themselves are not touched.
     */
    method ApplyFilters()
      modifies this`filtered
      ensures Shown()
    {
      var result := purchases;
      if searchTerm != "" {
        result := Filter(result, SearchKeep(searchTerm));
      }
      if statusFilter != "all" {
        result := Filter(result, StatusKeep(statusFilter));
      }
      result := SortBy(result, KeyFor(sort.field), sort.dir);
      filtered := result;
    }

    /** `fetchPurchases` after an OK response: the rows are kept and the table is rebuilt. */
    method Loaded(data: seq<Purchase>)
      modifies this`purchases, this`filtered
      ensures purchases == data && Shown()
    {
      purchases := data;
      filtered := data;
      ApplyFilters();
    }

    method SetSearchTerm(term: string)
      modifies this`searchTerm, this`filtered
      ensures searchTerm == term && Shown()
    {
      searchTerm := term;
      ApplyFilters();
    }

    method SetStatusFilter(status: string)
      modifies this`statusFilter, this`filtered
      ensures statusFilter == status && Shown()
    {
      statusFilter := status;
      ApplyFilters();
    }

    /** `handleSort`: the same column flips its direction, a new one starts descending. */
    method HandleSort(field: string)
      modifies this`sort, this`filtered
      ensures sort == Click(old(sort), field, Desc) && Shown()
    {
      if sort.field == field {
        sort := SortState(field, Flip(sort.dir));
      } else {
        sort := SortState(field, Desc);
      }
      ApplyFilters();
    }

    /**
     * `handleUpdateStatus` after an OK response: the targeted rows of the purchases
     * take the new status, as does the open detail view when it shows one of them;
     * the table is rebuilt from the updated purchases.
     */
    method UpdateStatus(purchaseId: nat, newStatus: string)
      modifies this`purchases, this`filtered, this`selected
      ensures purchases == WithStatus(old(purchases), purchaseId, newStatus)
      ensures old(selected).Some? && Targets(old(selected).value, purchaseId) ==>
        selected == Some(old(selected).value.(status := newStatus))
      ensures !(old(selected).Some? && Targets(old(selected).value, purchaseId)) ==> selected == old(selected)
      ensures Shown()
    {
      purchases := WithStatus(purchases, purchaseId, newStatus);
      filtered := WithStatus(filtered, purchaseId, newStatus);
      if selected.Some? && Targets(selected.value, purchaseId) {
        selected := Some(selected.value.(status := newStatus));
      }
      ApplyFilters();
    }
  }
}
