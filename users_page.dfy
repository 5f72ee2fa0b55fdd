/**
 * The admin users table (`Users.js`): the search, role and status filters and the
 * sort that `filteredAndSortedUsers` computes on every render, the sort header,
 * the status toggle, the rows of the export and the actions offered per row.
 */
module UsersPage {
  import opened Optional
  import opened Strings
  import opened Sorting

  /** A row of `GET /api/users`; phone and city may be null. */
  datatype User = User(
    id: nat, username: string, email: string, role: string, status: string,
    phone: Option<string>, city: Option<string>)

  datatype SearchBy = ByUsername | ById

  /** By username, the lower-cased name includes the lower-cased term; by id, the id's text includes the term. */
  predicate MatchesSearch(u: User, searchBy: SearchBy, term: string) {
    match searchBy
    case ByUsername => ContainsIgnoringCase(u.username, term)
    case ById => Contains(NatToString(u.id), term)
  }

  /** The three tests of the filter; `"all"` lets every role or status through. */
  predicate Passes(u: User, searchBy: SearchBy, term: string, role: string, status: string) {
    MatchesSearch(u, searchBy, term) && (role == "all" || u.role == role) && (status == "all" || u.status == status)
  }

  function Keep(searchBy: SearchBy, term: string, role: string, status: string): User -> bool {
    (u: User) => Passes(u, searchBy, term, role, status)
  }

  /** `a[sortField]`; a field the rows lack reads `undefined` everywhere, so all rows compare equal. */
  function UserKey(field: string, u: User): Key {
    if field == "id" then Num(u.id)
    else if field == "username" then Text(u.username)
    else if field == "email" then Text(u.email)
    else if field == "role" then Text(u.role)
    else if field == "status" then Text(u.status)
    else Num(0)
  }

  function KeyFor(field: string): User -> Key {
    (u: User) => UserKey(field, u)
  }

  /** `filteredAndSortedUsers`. */
  function Visible(users: seq<User>, searchBy: SearchBy, term: string, role: string, status: string, sort: SortState): seq<User> {
    SortBy(Filter(users, Keep(searchBy, term, role, status)), KeyFor(sort.field), sort.dir)
  }

  /**
   * The table holds each user that passes all three tests, as often as it occurs,
   * ordered by the sort field in the sort direction.
   */
  lemma VisibleMeaning(users: seq<User>, searchBy: SearchBy, term: string, role: string, status: string, sort: SortState)
    ensures forall u ::
      multiset(Visible(users, searchBy, term, role, status, sort))[u] ==
      (if Passes(u, searchBy, term, role, status) then multiset(users)[u] else 0)
    ensures forall u :: u in Visible(users, searchBy, term, role, status, sort) <==>
      u in users && Passes(u, searchBy, term, role, status)
    ensures SortedBy(Visible(users, searchBy, term, role, status, sort), KeyFor(sort.field), sort.dir)
  {
    var v := Visible(users, searchBy, term, role, status, sort);
    forall u ensures u in v <==> u in users && Passes(u, searchBy, term, role, status) {
      assert u in v <==> u in multiset(v);
      assert u in users <==> u in multiset(users);
    }
  }

  /** The status `handleStatusToggle` asks for: an active account is deactivated, any other activated. */
  function NextStatus(current: string): (next: string)
    ensures next == "Inactive" <==> current == "Active"
    ensures next == "Active" <==> current != "Active"
  {
    if current == "Active" then "Inactive" else "Active"
  }

  /** Two toggles give back an account that was active or inactive. */
  lemma ToggleTwice(current: string)
    requires current == "Active" || current == "Inactive"
    ensures NextStatus(NextStatus(current)) == current
  {
  }

  function Hit(userId: nat): User -> bool {
    (u: User) => u.id == userId
  }

  function SetStatus(newStatus: string): User -> User {
    (u: User) => u.(status := newStatus)
  }

  /** `users.map(user => user.id === userId ? { ...user, status } : user)`. */
  function WithStatus(users: seq<User>, userId: nat, newStatus: string): (r: seq<User>)
    ensures |r| == |users|
    ensures forall i | 0 <= i < |users| ::
      r[i] == if users[i].id == userId then users[i].(status := newStatus) else users[i]
  {
    MapWhere(users, Hit(userId), SetStatus(newStatus))
  }

  /** The export's columns that the model carries: everything but the join date. */
  datatype ExportRow = ExportRow(
    id: nat, username: string, email: string, role: string, status: string, phone: string, city: string)

  /** `value || "N/A"`. */
  function OrNA(value: Option<string>): string {
    if value.Some? && value.value != "" then value.value else "N/A"
  }

  function Row(u: User): ExportRow {
    ExportRow(u.id, u.username, u.email, u.role, u.status, OrNA(u.phone), OrNA(u.city))
  }

  function NotAdmin(): User -> bool {
    (u: User) => u.role != "Admin"
  }

  /** The export table: a row for each user who is not an admin, in list order. */
  function Export(users: seq<User>): seq<ExportRow> {
    var customers := Filter(users, NotAdmin());
    seq(|customers|, i requires 0 <= i < |customers| => Row(customers[i]))
  }

  /**
   * A row is exported exactly for a user who is not an admin, with `"N/A"` for a
   * missing or empty phone or city.
   */
  lemma ExportMeaning(users: seq<User>)
    ensures |Export(users)| == |Filter(users, NotAdmin())|
    ensures forall u | u in users && u.role != "Admin" :: Row(u) in Export(users)
    ensures forall r | r in Export(users) :: exists u | u in users :: u.role != "Admin" && r == Row(u)
  {
    var customers := Filter(users, NotAdmin());
    var rows := Export(users);
    forall u | u in users && u.role != "Admin" ensures Row(u) in rows {
      FilterMembers(users, NotAdmin(), u);
      var i :| 0 <= i < |customers| && customers[i] == u;
      assert rows[i] == Row(u);
    }
    forall r | r in rows ensures exists u | u in users :: u.role != "Admin" && r == Row(u) {
      var i :| 0 <= i < |rows| && rows[i] == r;
      FilterMembers(users, NotAdmin(), customers[i]);
    }
  }

  /** The action buttons of a row: the status toggle only for a user who is not an admin, then "Show more". */
  function Actions(u: User): (buttons: seq<string>)
    ensures buttons != [] && buttons[|buttons| - 1] == "Show more"
    ensures |buttons| == 2 <==> u.role != "Admin"
    ensures |buttons| == 1 <==> u.role == "Admin"
    ensures |buttons| == 2 ==> buttons[0] == (if u.status == "Active" then "Deactivate" else "Activate")
  {
    if u.role != "Admin" then [if u.status == "Active" then "Deactivate" else "Activate", "Show more"]
    else ["Show more"]
  }

  class Page {
    var users: seq<User>
    var searchTerm: string
    var searchBy: SearchBy
    var filterRole: string
    var filterStatus: string
    var sort: SortState

    /** The rows the table renders. */
    function Shown(): seq<User>
      reads this
    {
      Visible(users, searchBy, searchTerm, filterRole, filterStatus, sort)
    }

    constructor ()
      ensures users == [] && searchTerm == "" && searchBy == ByUsername
      ensures filterRole == "all" && filterStatus == "all" && sort == SortState("username", Asc)
    {
      users := [];
      searchTerm := "";
      searchBy := ByUsername;
      filterRole := "all";
      filterStatus := "all";
      sort := SortState("username", Asc);
    }

    /** `handleSort`: the same column flips its direction, a new one starts ascending. */
    method HandleSort(field: string)
      modifies this`sort
      ensures sort == Click(old(sort), field, Asc)
    {
      if sort.field == field {
        sort := SortState(field, Flip(sort.dir));
      } else {
        sort := SortState(field, Asc);
      }
    }

    /**
     * `handleStatusToggle`: the status sent is the opposite of the current one; on
     * an OK answer only the users with the id take it, and otherwise nothing changes.
     */
    method HandleStatusToggle(userId: nat, currentStatus: string, ok: bool) returns (sent: string)
      modifies this`users
      ensures sent == NextStatus(currentStatus)
      ensures ok ==> users == WithStatus(old(users), userId, sent)
      ensures !ok ==> users == old(users)
    {
      sent := if currentStatus == "Active" then "Inactive" else "Active";
      if ok {
        users := WithStatus(users, userId, sent);
      }
    }
  }
}
