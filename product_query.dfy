/** The catalogue listing of backend/routes/products.js: the database filter built from the query
    string, the sort table, and the optional page/limit arithmetic of `GET /`. The database itself
    is a parameter: the products that match, already in sort order. */
module ProductQuery {
  import opened Wrappers
  import opened Text

  /** The query-string fields the listing reads; an absent field is None. */
  datatype Query = Query(
    category: Option<string>,
    search: Option<string>,
    genre: Option<string>,
    language: Option<string>,
    bookType: Option<string>,
    author: Option<string>,
    sortBy: Option<string>,
    page: Option<string>,
    limit: Option<string>)

  /** `new RegExp(source, 'i')`: a case-insensitive pattern built from user text. */
  datatype Regex = Regex(source: string, ignoreCase: bool)

  /** The value a filter key holds: an exact string, a pattern, or `$or` over (field, pattern). */
  datatype Constraint = Equals(value: string) | Matches(re: Regex) | AnyOf(alternatives: seq<(string, Regex)>)

  type Filter = map<string, Constraint>

  /** The fields a search looks in, in the order of the `$or`. */
  const SearchFields: seq<string> := ["name", "author", "description", "genre"]

  /** An exact-match field is used when it is present, not empty and not 'All'. */
  predicate Selects(v: Option<string>) {
    Truthy(v) && v.value != "All"
  }

  /** `buildProductFilter`: the filter is filled key by key, in the order of the source. It holds an
      exact-match key exactly for the selecting fields, a case-insensitive author pattern and a
      search, and nothing but those six keys. */
  function BuildFilter(q: Query): (f: Filter)
    ensures "category" in f <==> Selects(q.category)
    ensures "genre" in f <==> Selects(q.genre)
    ensures "language" in f <==> Selects(q.language)
    ensures "bookType" in f <==> Selects(q.bookType)
    ensures "author" in f <==> Truthy(q.author)
    ensures "$or" in f <==> Truthy(q.search)
    ensures Selects(q.category) ==> f["category"] == Equals(q.category.value)
    ensures Selects(q.genre) ==> f["genre"] == Equals(q.genre.value)
    ensures Selects(q.language) ==> f["language"] == Equals(q.language.value)
    ensures Selects(q.bookType) ==> f["bookType"] == Equals(q.bookType.value)
    ensures Truthy(q.author) ==> f["author"] == Matches(Regex(q.author.value, true))
    ensures forall k :: k in f ==> k in {"category", "genre", "language", "bookType", "author", "$or"}
  {
    var f0: Filter := map[];
    var f1 := if Selects(q.category) then f0["category" := Equals(q.category.value)] else f0;
    var f2 := if Selects(q.genre) then f1["genre" := Equals(q.genre.value)] else f1;
    var f3 := if Selects(q.language) then f2["language" := Equals(q.language.value)] else f2;
    var f4 := if Selects(q.bookType) then f3["bookType" := Equals(q.bookType.value)] else f3;
    var f5 := if Truthy(q.author) then f4["author" := Matches(Regex(q.author.value, true))] else f4;
    if Truthy(q.search) then f5["$or" := AnyOf(SearchAlternatives(q.search.value))] else f5
  }

  function SearchAlternatives(search: string): (r: seq<(string, Regex)>)
    ensures |r| == |SearchFields|
    ensures forall i :: 0 <= i < |r| ==> r[i] == (SearchFields[i], Regex(search, true))
  {
    [("name", Regex(search, true)), ("author", Regex(search, true)),
     ("description", Regex(search, true)), ("genre", Regex(search, true))]
  }

  /** A sort order: one field, ascending (1) or descending (-1). */
  datatype SortSpec = SortSpec(field: string, direction: int)

  /** `buildSort`: price, name and author ascend; rating and votes descend; anything else (or
      nothing) sorts by name. */
  function BuildSort(sortBy: Option<string>): (r: SortSpec)
    ensures r.field in {"price", "rating", "votes", "name", "author"} && r.direction in {1, -1}
    ensures r.direction == -1 <==> Truthy(sortBy) && sortBy.value in {"rating", "votes"}
    ensures Truthy(sortBy) && sortBy.value in {"price", "rating", "votes", "name", "author"} ==>
      r.field == sortBy.value
    ensures !Truthy(sortBy) || sortBy.value !in {"price", "rating", "votes", "name", "author"} ==>
      r == SortSpec("name", 1)
  {
    if !Truthy(sortBy) then SortSpec("name", 1)
    else match sortBy.value
      case "price" => SortSpec("price", 1)
      case "rating" => SortSpec("rating", -1)
      case "votes" => SortSpec("votes", -1)
      case "name" => SortSpec("name", 1)
      case "author" => SortSpec("author", 1)
      case _ => SortSpec("name", 1)
  }

  /** `Math.max(parseInt(page || '1', 10), 1)`; None stands for NaN, which `Math.max` passes on. */
  function PageOf(raw: Option<string>): (r: Option<int>)
    ensures !Truthy(raw) ==> r == Some(1)
    ensures r.Some? ==> r.value >= 1
    ensures Truthy(raw) && ParseInt(raw.value).Some? ==>
      r == Some(if ParseInt(raw.value).value < 1 then 1 else ParseInt(raw.value).value)
    ensures Truthy(raw) && ParseInt(raw.value).None? ==> r.None?
  {
    var text := if Truthy(raw) then raw.value else "1";
    ParseIntOfDigits("1");
    match ParseInt(text)
    case None => None
    case Some(p) => Some(if p < 1 then 1 else p)
  }

  /** The limit: a finite positive `parseInt(limit, 10)` capped at 1000; otherwise none, which turns
      pagination off. */
  function LimitOf(raw: Option<string>): (r: Option<int>)
    ensures r.Some? ==> 1 <= r.value <= 1000
    ensures r.Some? <==> raw.Some? && ParseInt(raw.value).Some? && ParseInt(raw.value).value > 0
    ensures r.Some? && ParseInt(raw.value).value <= 1000 ==> r.value == ParseInt(raw.value).value
    ensures r.Some? && ParseInt(raw.value).value > 1000 ==> r.value == 1000
  {
    if raw.None? then None
    else match ParseInt(raw.value)
      case Some(l) => if l > 0 then Some(if l < 1000 then l else 1000) else None
      case None => None
  }

  /** `(page - 1) * limit`. */
  function Skip(page: int, limit: int): int {
    (page - 1) * limit
  }

  /** `Math.ceil(total / limit)`. */
  function TotalPages(total: nat, limit: int): (r: nat)
    requires limit > 0
  {
    (total + limit - 1) / limit
  }

  /** `.skip(skip).limit(limit)` on the sorted matches. */
  function PageSlice<T>(matches: seq<T>, page: int, limit: int): (r: seq<T>)
    requires page >= 1 && limit > 0
  {
    var from := if Skip(page, limit) < |matches| then Skip(page, limit) else |matches|;
    var to := if from + limit < |matches| then from + limit else |matches|;
    matches[from..to]
  }

  /** The reply of `GET /`: every match, or one page with its counts. */
  datatype Listing<T> =
    | AllMatches(products: seq<T>)
    | Paged(items: seq<T>, page: int, limit: int, total: nat, totalPages: nat)
    | PageNotANumber

  /** The listing for query `q`, given the products matching `BuildFilter(q)` in `BuildSort` order. */
  function List<T>(q: Query, matches: seq<T>): (r: Listing<T>)
    ensures LimitOf(q.limit).None? ==> r == AllMatches(matches)
    ensures LimitOf(q.limit).Some? && PageOf(q.page).None? ==> r == PageNotANumber
    ensures LimitOf(q.limit).Some? && PageOf(q.page).Some? ==>
      r.Paged? && r.limit == LimitOf(q.limit).value && r.page == PageOf(q.page).value && r.total == |matches|
    ensures r.Paged? ==> r.items == PageSlice(matches, r.page, r.limit) && r.totalPages == TotalPages(r.total, r.limit)
  {
    match LimitOf(q.limit)
    case None => AllMatches(matches)
    case Some(limit) =>
      match PageOf(q.page)
      case None => PageNotANumber
      case Some(page) => Paged(PageSlice(matches, page, limit), page, limit, |matches|, TotalPages(|matches|, limit))
  }

  // ---------------------------------------------------------------------------------------------
  // Properties

  /** A search looks in exactly name, author, description and genre, case-insensitively. */
  lemma SearchShape(q: Query)
    requires Truthy(q.search)
    ensures var f := BuildFilter(q);
      "$or" in f && f["$or"].AnyOf?
      && |f["$or"].alternatives| == 4
      && (forall i :: 0 <= i < 4 ==> f["$or"].alternatives[i].0 == SearchFields[i])
      && (forall i :: 0 <= i < 4 ==> f["$or"].alternatives[i].1 == Regex(q.search.value, true))
  {
  }

  /** A query with no filtering field, or only 'All' selections, filters nothing. */
  lemma EmptyQueryEmptyFilter(q: Query)
    requires !Selects(q.category) && !Selects(q.genre) && !Selects(q.language) && !Selects(q.bookType)
    requires !Truthy(q.author) && !Truthy(q.search)
    ensures BuildFilter(q) == map[]
  {
  }

  /** `Math.ceil(total / limit)` is the least page count whose pages hold every match. */
  lemma TotalPagesIsCeiling(total: nat, limit: int)
    requires limit > 0
    ensures TotalPages(total, limit) * limit >= total
    ensures TotalPages(total, limit) > 0 ==> (TotalPages(total, limit) - 1) * limit < total
    ensures TotalPages(total, limit) == 0 <==> total == 0
  {
    var r := TotalPages(total, limit);
    var n := total + limit - 1;
    assert n == r * limit + n % limit;
    assert 0 <= n % limit < limit;
    if r > 0 {
      assert (r - 1) * limit == r * limit - limit;
    }
  }

  /** A page holds at most `limit` products, taken in order from position `(page - 1)·limit`. */
  lemma PageSliceContents<T>(matches: seq<T>, page: int, limit: int)
    requires page >= 1 && limit > 0
    ensures var s := PageSlice(matches, page, limit);
      && |s| <= limit
      && (forall i :: 0 <= i < |s| ==> s[i] == matches[Skip(page, limit) + i])
      && (Skip(page, limit) + limit <= |matches| ==> |s| == limit)
  {
    assert Skip(page, limit) >= 0 by {
      assert page - 1 >= 0;
    }
  }

  /** The pages 1..totalPages are exactly the non-empty ones: a page beyond the last is empty and
      every earlier page holds at least one product. */
  lemma PagesCoverMatches<T>(matches: seq<T>, page: int, limit: int)
    requires page >= 1 && limit > 0
    ensures |PageSlice(matches, page, limit)| > 0 <==> page <= TotalPages(|matches|, limit)
  {
    var n := |matches|;
    var r := TotalPages(n, limit);
    var skip := Skip(page, limit);
    assert |PageSlice(matches, page, limit)| > 0 <==> skip < n;
    TotalPagesIsCeiling(n, limit);
    if page <= r {
      MulMonotone(page - 1, r - 1, limit);
      assert skip <= (r - 1) * limit;
    } else {
      MulMonotone(r, page - 1, limit);
      assert r * limit <= skip;
    }
  }

  lemma MulMonotone(a: int, b: int, c: int)
    requires a <= b && c >= 0
    ensures a * c <= b * c
  {
    assert b * c - a * c == (b - a) * c;
  }

  /** Each product of the match list sits on the page its position determines. */
  lemma EveryMatchOnItsPage<T>(matches: seq<T>, limit: int, i: nat)
    requires limit > 0 && i < |matches|
    ensures var page := i / limit + 1;
      1 <= page <= TotalPages(|matches|, limit)
      && PageSlice(matches, page, limit)[i % limit] == matches[i]
  {
    var page := i / limit + 1;
    assert Skip(page, limit) == (i / limit) * limit;
    assert i == (i / limit) * limit + i % limit;
    PageSliceContents(matches, page, limit);
    PagesCoverMatches(matches, page, limit);
  }

  /** Without a usable limit the whole match list comes back; with one, a page of it and the counts. */
  lemma ListingShape<T>(q: Query, matches: seq<T>)
    ensures LimitOf(q.limit).None? ==> List(q, matches) == AllMatches(matches)
    ensures LimitOf(q.limit).Some? && PageOf(q.page).Some? ==>
      var l := List(q, matches);
      && l.Paged? && l.total == |matches| && 1 <= l.limit <= 1000 && l.page >= 1
      && l.items == PageSlice(matches, l.page, l.limit) && |l.items| <= l.limit
      && l.totalPages * l.limit >= l.total
      && (l.totalPages > 0 ==> (l.totalPages - 1) * l.limit < l.total)
  {
    if LimitOf(q.limit).Some? && PageOf(q.page).Some? {
      var limit, page := LimitOf(q.limit).value, PageOf(q.page).value;
      var l := List(q, matches);
      assert l == Paged(PageSlice(matches, page, limit), page, limit, |matches|, TotalPages(|matches|, limit));
      PageSliceContents(matches, page, limit);
      TotalPagesIsCeiling(|matches|, limit);
    }
  }
}
