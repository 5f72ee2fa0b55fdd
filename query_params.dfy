/**
 * The two admin list routes that grow an SQL text and its parameter list together:
 * `GET /api/purchases` (status, date range and search filters) and
 * `GET /api/feedbacks` (search). Each optional filter appends a clause with `?`
 * placeholders and pushes one parameter per placeholder, so the driver always
 * receives as many values as the text has placeholders.
 *
 * The SQL text is kept as a sequence of pieces, literal text and `?` placeholders,
 * so that the placeholders can be counted; `Render` gives the text itself.
 * A query-string value is present when it is a non-empty string (`if (status)`).
 */
module QueryParams {
  import opened Optional

  datatype Piece = Text(s: string) | Hole

  /** The SQL text the pieces spell, a `?` for each placeholder. */
  function Render(q: seq<Piece>): string {
    if q == [] then "" else (match q[0] case Text(s) => s case Hole => "?") + Render(q[1..])
  }

  /** The number of `?` placeholders. */
  function Holes(q: seq<Piece>): nat {
    if q == [] then 0 else (if q[0] == Hole then 1 else 0) + Holes(q[1..])
  }

  lemma {:induction false} HolesAppend(a: seq<Piece>, b: seq<Piece>)
    ensures Holes(a + b) == Holes(a) + Holes(b)
    decreases |a|
  {
    if a == [] {
      assert a + b == b;
    } else {
      assert (a + b)[1..] == a[1..] + b;
      HolesAppend(a[1..], b);
    }
  }

  /** `sql += clause; params.push(...values)`: text and values grow together. */
  method Extend(sql: seq<Piece>, params: seq<string>, clause: seq<Piece>, values: seq<string>)
    returns (sql': seq<Piece>, params': seq<string>)
    requires Holes(sql) == |params| && Holes(clause) == |values|
    ensures sql' == sql + clause && params' == params + values
    ensures Holes(sql') == |params'|
  {
    HolesAppend(sql, clause);
    sql' := sql + clause;
    params' := params + values;
  }

  /** A query-string value counts when it is there and not empty. */
  predicate Given(v: Option<string>) {
    v.Some? && v.value != ""
  }

  /** `%${search}%`, the LIKE pattern of a search term. */
  function LikePattern(term: string): (p: string)
    ensures |p| == |term| + 2 && p[0] == '%' && p[|p| - 1] == '%' && p[1..|p| - 1] == term
  {
    "%" + term + "%"
  }

  const PurchasesSelect: string :=
    "SELECT o.id, o.id as orderId, o.order_date as date, i.price as amount, " +
    "c.username as customerName, c.email as customerEmail, i.name as productName, i.id as productId, " +
    "pd.payment_status as status, s.id as sellerId, s.username as sellerName " +
    "FROM `order` o JOIN customers c ON o.buyer_id = c.id JOIN items i ON o.product_id = i.id " +
    "JOIN paymentdetails pd ON o.id = pd.order_id JOIN customers s ON i.customer_id = s.id WHERE 1=1"

  const FeedbacksSelect: string :=
    "SELECT f.id, c.username as userName, f.rating, f.message as comment, f.created_at as date " +
    "FROM feedback f JOIN customers c ON f.customer_id = c.id WHERE 1=1"

  /** The value a filter contributes: itself when given, nothing otherwise. */
  function ValueOf(v: Option<string>): seq<string> {
    if Given(v) then [v.value] else []
  }

  /** `n` copies of `x`. */
  function Repeat(x: string, n: nat): (r: seq<string>)
    ensures |r| == n && forall i | 0 <= i < n :: r[i] == x
  {
    seq(n, _ => x)
  }

  /** What a search over `n` columns contributes: one copy of the LIKE pattern per column. */
  function SearchValues(search: Option<string>, n: nat): seq<string> {
    if Given(search) then Repeat(LikePattern(search.value), n) else []
  }

  /** The values the purchases query is given, in placeholder order. */
  function PurchaseParams(status: Option<string>, dateFrom: Option<string>, dateTo: Option<string>, search: Option<string>): seq<string> {
    ValueOf(status) + ValueOf(dateFrom) + ValueOf(dateTo) + SearchValues(search, 4)
  }

  /**
   * The text `heads[0] ? heads[1] ? ...`: each head followed by one placeholder,
   * the way the search clauses compare one pattern with several columns.
   */
  function Placeholders(heads: seq<string>): (q: seq<Piece>)
    ensures Holes(q) == |heads|
    decreases |heads|
  {
    if heads == [] then []
    else
      var rest := Placeholders(heads[1..]);
      HolesAppend([Text(heads[0]), Hole], rest);
      [Text(heads[0]), Hole] + rest
  }

  /** The fixed start of a listing query, `SELECT ... WHERE 1=1`, which has no placeholder. */
  function Opening(select: string): (q: seq<Piece>)
    ensures Holes(q) == 0
  {
    [Text(select)]
  }

  /** `if (v) { query += head + "?"; params.push(v) }`: one optional comparison filter. */
  method AddFilter(sql: seq<Piece>, params: seq<string>, v: Option<string>, head: string)
    returns (sql': seq<Piece>, params': seq<string>)
    requires Holes(sql) == |params|
    ensures Holes(sql') == |params'|
    ensures params' == params + ValueOf(v)
    ensures Given(v) ==> sql' == sql + Placeholders([head])
    ensures !Given(v) ==> sql' == sql
  {
    sql', params' := sql, params;
    if Given(v) {
      sql', params' := Extend(sql, params, Placeholders([head]), [v.value]);
    }
  }

  /**
   * `if (search) { query += " AND (col LIKE ? OR ...)"; params.push(pattern, ...) }`:
   * the search filter, one placeholder and one copy of the pattern per column head.
   */
  method AddSearch(sql: seq<Piece>, params: seq<string>, search: Option<string>, heads: seq<string>)
    returns (sql': seq<Piece>, params': seq<string>)
    requires Holes(sql) == |params|
    ensures Holes(sql') == |params'|
    ensures params' == params + SearchValues(search, |heads|)
    ensures Given(search) ==> sql' == sql + Placeholders(heads) + [Text(")")]
    ensures !Given(search) ==> sql' == sql
  {
    sql', params' := sql, params;
    if Given(search) {
      var pattern := LikePattern(search.value);
      HolesAppend(Placeholders(heads), [Text(")")]);
      sql', params' := Extend(sql, params, Placeholders(heads) + [Text(")")], Repeat(pattern, |heads|));
    }
  }

  /** `GET /api/purchases`: the SQL text and its parameters. */
  method PurchasesQuery(status: Option<string>, dateFrom: Option<string>, dateTo: Option<string>, search: Option<string>)
    returns (sql: seq<Piece>, params: seq<string>)
    ensures Holes(sql) == |params|
    ensures params == PurchaseParams(status, dateFrom, dateTo, search)
  {
    sql := Opening(PurchasesSelect);
    params := [];
    sql, params := AddFilter(sql, params, status, " AND pd.payment_status = ");
    assert params == ValueOf(status);
    sql, params := AddFilter(sql, params, dateFrom, " AND o.order_date >= ");
    sql, params := AddFilter(sql, params, dateTo, " AND o.order_date <= ");
    sql, params := AddSearch(sql, params, search,
      [" AND (o.id LIKE ", " OR c.username LIKE ", " OR i.name LIKE ", " OR c.email LIKE "]);
    sql, params := Extend(sql, params, [Text(" ORDER BY o.order_date DESC")], []);
    assert params == ValueOf(status) + ValueOf(dateFrom) + ValueOf(dateTo) + SearchValues(search, 4) + [];
  }

  /** The purchases query carries one value per given filter and four for a search. */
  lemma PurchaseParamsCount(status: Option<string>, dateFrom: Option<string>, dateTo: Option<string>, search: Option<string>)
    ensures |PurchaseParams(status, dateFrom, dateTo, search)| ==
            (if Given(status) then 1 else 0) + (if Given(dateFrom) then 1 else 0) +
            (if Given(dateTo) then 1 else 0) + (if Given(search) then 4 else 0)
  {
  }

  /** `GET /api/feedbacks`: the SQL text and its parameters. */
  method FeedbacksQuery(search: Option<string>) returns (sql: seq<Piece>, params: seq<string>)
    ensures Holes(sql) == |params|
    ensures params == SearchValues(search, 3)
  {
    sql := Opening(FeedbacksSelect);
    params := [];
    sql, params := AddSearch(sql, params, search, [" AND (f.id LIKE ", " OR c.username LIKE ", " OR f.message LIKE "]);
    sql, params := Extend(sql, params, [Text(" ORDER BY f.created_at DESC")], []);
    assert params == SearchValues(search, 3) + [];
  }
}
