/**
 * The admin feedback table (`AdminFeedback.js`): the search, rating filter and sort
 * that `applyFilters` runs over a copy of the feedback, the sort header, comment
 * truncation and the star row.
 */
module AdminFeedbackPage {
  import opened Strings
  import opened Sorting

  /** A row of `GET /api/feedbacks`; the date is a timestamp. */
  datatype Feedback = Feedback(id: nat, userName: string, rating: int, comment: string, date: int)

  /** The rating select: `"all"`, or a value `parseInt` reads as the number `n`. */
  datatype RatingFilter = AllRatings | Stars(n: int)

  /** The id as text, the user name or the comment contains the term, ignoring case. */
  predicate SearchHit(f: Feedback, term: string) {
    ContainsIgnoringCase(NatToString(f.id), term) ||
    ContainsIgnoringCase(f.userName, term) ||
    ContainsIgnoringCase(f.comment, term)
  }

  function SearchKeep(term: string): Feedback -> bool {
    (f: Feedback) => SearchHit(f, term)
  }

  function RatingKeep(n: int): Feedback -> bool {
    (f: Feedback) => f.rating == n
  }

  /** The comparator's value: the rating (`rating || 0`), the user name, or else the date. */
  function FeedbackKey(field: string, f: Feedback): Key {
    if field == "rating" then Num(f.rating)
    else if field == "userName" then Text(f.userName)
    else Num(f.date)
  }

  function KeyFor(field: string): Feedback -> Key {
    (f: Feedback) => FeedbackKey(field, f)
  }

  /** An empty search term and the rating filter `"all"` let every row through. */
  predicate Passes(f: Feedback, searchTerm: string, rating: RatingFilter) {
    (searchTerm == "" || SearchHit(f, searchTerm)) && (rating.AllRatings? || f.rating == rating.n)
  }

  /** The table `applyFilters` produces. */
  function Visible(feedbacks: seq<Feedback>, searchTerm: string, rating: RatingFilter, sort: SortState): seq<Feedback> {
    var searched := if searchTerm != "" then Filter(feedbacks, SearchKeep(searchTerm)) else feedbacks;
    var kept := if rating.Stars? then Filter(searched, RatingKeep(rating.n)) else searched;
    SortBy(kept, KeyFor(sort.field), sort.dir)
  }

  /**
   * The table holds each row that passes the search and the rating filter, as often
   * as it occurs, and nothing else, ordered by the sort field in the sort direction.
   */
  lemma VisibleMeaning(feedbacks: seq<Feedback>, searchTerm: string, rating: RatingFilter, sort: SortState)
    ensures forall f ::
      multiset(Visible(feedbacks, searchTerm, rating, sort))[f] ==
      (if Passes(f, searchTerm, rating) then multiset(feedbacks)[f] else 0)
    ensures forall f :: f in Visible(feedbacks, searchTerm, rating, sort) <==>
      f in feedbacks && Passes(f, searchTerm, rating)
    ensures SortedBy(Visible(feedbacks, searchTerm, rating, sort), KeyFor(sort.field), sort.dir)
  {
    var searched := if searchTerm != "" then Filter(feedbacks, SearchKeep(searchTerm)) else feedbacks;
    var kept := if rating.Stars? then Filter(searched, RatingKeep(rating.n)) else searched;
    var v := Visible(feedbacks, searchTerm, rating, sort);
    assert multiset(v) == multiset(kept);
    forall f ensures multiset(v)[f] == (if Passes(f, searchTerm, rating) then multiset(feedbacks)[f] else 0) {
      assert multiset(searched)[f] == (if searchTerm == "" || SearchHit(f, searchTerm) then multiset(feedbacks)[f] else 0);
      assert multiset(kept)[f] == (if rating.AllRatings? || f.rating == rating.n then multiset(searched)[f] else 0);
    }
    forall f ensures f in v <==> f in feedbacks && Passes(f, searchTerm, rating) {
      assert f in v <==> f in multiset(v);
      assert f in feedbacks <==> f in multiset(feedbacks);
    }
  }

  /** The id header and any unknown field order the table by date. */
  lemma OtherFieldsSortByDate(field: string, f: Feedback)
    requires field != "rating" && field != "userName"
    ensures FeedbackKey(field, f) == Num(f.date)
    ensures FeedbackKey("id", f) == Num(f.date)
  {
  }

  /**
   * `truncateComment(comment, maxLength)`: a comment of at most `maxLength`
   * characters is shown whole; a longer one is cut to its first `maxLength`
   * characters followed by `...`.
   */
  function TruncateComment(comment: string, maxLength: nat): (r: string)
    ensures |comment| <= maxLength ==> r == comment
    ensures |comment| > maxLength ==> |r| == maxLength + 3 && r[..maxLength] == comment[..maxLength] && r[maxLength..] == "..."
    ensures |r| <= maxLength + 3
  {
    if comment == "" || |comment| <= maxLength then comment else Take(comment, maxLength) + "..."
  }

  /** `renderStars(rating)`: for stars 1 to 5, whether each is drawn filled. */
  function StarRow(rating: int): (r: seq<bool>)
    ensures |r| == 5
    ensures forall i | 0 <= i < 5 :: r[i] <==> i + 1 <= rating
  {
    seq(5, i requires 0 <= i < 5 => i + 1 <= rating)
  }

  /** The number of `true` values. */
  function CountFilled(s: seq<bool>): nat {
    if s == [] then 0 else (if s[0] then 1 else 0) + CountFilled(s[1..])
  }

  /** The filled stars are the first ones, and there are as many as the rating, kept to 0 to 5. */
  lemma StarRowCount(rating: int)
    ensures CountFilled(StarRow(rating)) == Clamp(rating, 5)
    ensures forall j, k | 0 <= j < k < 5 :: StarRow(rating)[k] ==> StarRow(rating)[j]
  {
    var r := StarRow(rating);
    var r1, r2, r3, r4 := r[1..], r[2..], r[3..], r[4..];
    assert r1[1..] == r2 && r2[1..] == r3 && r3[1..] == r4 && r4[1..] == [];
    assert CountFilled(r4) == (if r[4] then 1 else 0);
    assert CountFilled(r3) == (if r[3] then 1 else 0) + CountFilled(r4);
    assert CountFilled(r2) == (if r[2] then 1 else 0) + CountFilled(r3);
    assert CountFilled(r1) == (if r[1] then 1 else 0) + CountFilled(r2);
  }

  class Page {
    var feedbacks: seq<Feedback>
    var filtered: seq<Feedback>
    var searchTerm: string
    var rating: RatingFilter
    var sort: SortState

    /** The table is what the filters make of the feedback, as `useEffect` keeps it. */
    predicate Shown()
      reads this
    {
      filtered == Visible(feedbacks, searchTerm, rating, sort)
    }

    constructor ()
      ensures feedbacks == [] && searchTerm == "" && rating == AllRatings && sort == SortState("date", Desc)
      ensures Shown()
    {
      feedbacks := [];
      filtered := [];
      searchTerm := "";
      rating := AllRatings;
      sort := SortState("date", Desc);
    }

    /** `applyFilters`: a copy narrowed by the search term, then by the rating, then sorted. */
    method ApplyFilters()
      modifies this`filtered
      ensures Shown()
    {
      var result := feedbacks;
      if searchTerm != "" {
        result := Filter(result, SearchKeep(searchTerm));
      }
      if rating.Stars? {
        result := Filter(result, RatingKeep(rating.n));
      }
      result := SortBy(result, KeyFor(sort.field), sort.dir);
      filtered := result;
    }

    /** `fetchFeedbacks` after an OK response. */
    method Loaded(data: seq<Feedback>)
      modifies this`feedbacks, this`filtered
      ensures feedbacks == data && Shown()
    {
      feedbacks := data;
      filtered := data;
      ApplyFilters();
    }

    method SetSearchTerm(term: string)
      modifies this`searchTerm, this`filtered
      ensures searchTerm == term && Shown()
    {
      searchTerm := term;
      ApplyFilters();
    }

    method SetRatingFilter(r: RatingFilter)
      modifies this`rating, this`filtered
      ensures rating == r && Shown()
    {
      rating := r;
      ApplyFilters();
    }

    /** `handleSort`: the same column flips its direction, a new one starts descending. */
    method HandleSort(field: string)
      modifies this`sort, this`filtered
      ensures sort == Click(old(sort), field, Desc) && Shown()
    {
      if sort.field == field {
        sort := SortState(field, Flip(sort.dir));
      } else {
        sort := SortState(field, Desc);
      }
      ApplyFilters();
    }
  }
}
