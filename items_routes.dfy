/**
 * routes/items_routes.py: the item listing (filters, its count query and
 * pagination) and the creation of an item. The database, `int()` on query
 * arguments and `float()` on price arguments are modelled as described at
 * each member; the database calls are parameters.
 */
module ItemsRoutes {
  import opened Wrappers
  import opened StringUtil
  import opened SqlParams

  /** The query-string arguments `get_items` reads (None when absent). */
  datatype ItemsArgs = ItemsArgs(
    categoryId: Option<string>, city: Option<string>, minPrice: Option<string>,
    maxPrice: Option<string>, search: Option<string>, page: Option<string>, limit: Option<string>)

  const DefaultPage: int := 1
  const DefaultLimit: int := 20

  /** `int(request.args.get(name, default))`: None where `int()` raises. */
  function IntArg(arg: Option<string>, default: int): (r: Option<int>)
    ensures arg.None? ==> r == Some(default)
    ensures arg.Some? ==> r == ParseInt(arg.value)
  {
    if arg.None? then Some(default) else ParseInt(arg.value)
  }

  /** Python's `a // b`: the floor of the quotient, for either sign of `b`. */
  function FloorDiv(a: int, b: int): (q: int)
    requires b != 0
    ensures b > 0 ==> q * b <= a < q * b + b
    ensures b < 0 ==> q * b >= a > q * b + b
  {
    if b > 0 then a / b else (-a) / (-b)
  }

  /** `(page - 1) * limit`. */
  function Offset(page: int, limit: int): int {
    (page - 1) * limit
  }

  /** Consecutive pages abut: the next page starts `limit` rows further on,
      and the first page starts at row 0. */
  lemma OffsetsAbut(page: int, limit: int)
    ensures Offset(page + 1, limit) == Offset(page, limit) + limit
    ensures Offset(1, limit) == 0
  {
  }

  /** `(total + limit - 1) // limit`: None where the division raises. */
  function Pages(total: int, limit: int): Option<int> {
    if limit == 0 then None else Some(FloorDiv(total + limit - 1, limit))
  }

  /** For a positive limit the page count is the ceiling of total / limit:
      the pages hold every row and the last page is not empty. */
  lemma PagesIsCeiling(total: int, limit: int)
    requires limit > 0
    ensures Pages(total, limit).Some?
    ensures var pages := Pages(total, limit).value;
      total <= pages * limit && (pages - 1) * limit < total
  {
    var pages := FloorDiv(total + limit - 1, limit);
    assert pages * limit <= total + limit - 1 < pages * limit + limit;
    assert (pages - 1) * limit == pages * limit - limit;
  }

  /** The listing and count SELECTs (whitespace condensed, kept in short
      pieces so that the verifier sees they hold no '%'). */
  const ItemColumns: string :=
    "SELECT i.*, " + "u.first_name, " + "u.last_name, " + "u.rating, " + "u.profile_picture_url, "
  const CategoryColumns: string :=
    "c.name as category_name, " + "c.slug as category_slug, "
  const ImageSelect: string := "(SELECT " + "GROUP_CONCAT(image_url) " + "FROM item_images "
  const ImageWhere: string := "WHERE item_id = i.id " + "AND is_primary = TRUE) " + "as primary_image "
  const PrimaryImage: string := ImageSelect + ImageWhere
  const ItemsFrom: string :=
    "FROM items i " + "JOIN users u " + "ON i.owner_id = u.id "
  const CategoryJoin: string :=
    "JOIN categories c " + "ON i.category_id = c.id "
  const ActiveOnly: string :=
    "WHERE i.listing_status = " + "'active' " + "AND u.is_active = TRUE"
  const ItemsSql: string :=
    ItemColumns + CategoryColumns + PrimaryImage + ItemsFrom + CategoryJoin + ActiveOnly
  const CountSql: string :=
    "SELECT COUNT(*) " + "as total " + ItemsFrom + ActiveOnly

  /** The clauses the handler appends, each with its placeholders. */
  const CategoryClause: string := " AND i.category_id = " + Placeholder
  const CityClause: string := " AND i.city = " + Placeholder
  const MinPriceClause: string := " AND i.daily_rental_" + "price >= " + Placeholder
  const MaxPriceClause: string := " AND i.daily_rental_" + "price <= " + Placeholder
  const SearchClause: string := " AND (i.title LIKE " + Placeholder + " OR i.description " + "LIKE " + Placeholder + ")"
  const PagingClause: string := " ORDER BY " + "i.created_at DESC " + "LIMIT " + Placeholder + " OFFSET " + Placeholder

  /** SQL text to append and the parameters it binds. */
  datatype Fragment = Fragment(sql: string, params: seq<Param>)

  const NoFilter: Fragment := Fragment("", [])

  /** `f"%{search}%"`. */
  function SearchTerm(search: string): string {
    "%" + search + "%"
  }

  /** A text filter: its clause and the argument itself when the argument is
      non-empty. */
  function TextFilter(arg: Option<string>, clause: string): (f: Fragment)
    ensures ArgTruthy(arg) ==> f.sql == clause && f.params == [PStr(arg.value)]
    ensures !ArgTruthy(arg) ==> f == NoFilter
  {
    if ArgTruthy(arg) then Fragment(clause, [PStr(arg.value)]) else NoFilter
  }

  /** A price filter: its clause and `float(arg)` when the argument is
      non-empty; None where `float()` raises. */
  function PriceFilter(arg: Option<string>, clause: string, parseFloat: string -> Option<real>): (f: Option<Fragment>)
    ensures f.None? <==> ArgTruthy(arg) && parseFloat(arg.value).None?
    ensures f.Some? && ArgTruthy(arg) ==> f.value.sql == clause && f.value.params == [PReal(parseFloat(arg.value).value)]
    ensures f.Some? && !ArgTruthy(arg) ==> f.value == NoFilter
  {
    if !ArgTruthy(arg) then Some(NoFilter)
    else match parseFloat(arg.value)
      case None => None
      case Some(v) => Some(Fragment(clause, [PReal(v)]))
  }

  /** The search filter: the same `%term%` for title and description. */
  function SearchFilter(arg: Option<string>): (f: Fragment)
    ensures ArgTruthy(arg) ==> f.sql == SearchClause && f.params == [PStr(SearchTerm(arg.value)), PStr(SearchTerm(arg.value))]
    ensures !ArgTruthy(arg) ==> f == NoFilter
  {
    if ArgTruthy(arg) then Fragment(SearchClause, [PStr(SearchTerm(arg.value)), PStr(SearchTerm(arg.value))])
    else NoFilter
  }

  function Then(a: Fragment, b: Fragment): Fragment {
    Fragment(a.sql + b.sql, a.params + b.params)
  }

  /** The five filters in the handler's order: category, city, minimum
      price, maximum price, search. None where a price does not parse. */
  function Filters(args: ItemsArgs, parseFloat: string -> Option<real>): Option<Fragment> {
    var min := PriceFilter(args.minPrice, MinPriceClause, parseFloat);
    var max := PriceFilter(args.maxPrice, MaxPriceClause, parseFloat);
    if min.None? || max.None? then None
    else Some(Then(Then(Then(Then(TextFilter(args.categoryId, CategoryClause), TextFilter(args.city, CityClause)),
                                   min.value), max.value), SearchFilter(args.search)))
  }

  /** Which filters a request binds, in order, and how many parameters. */
  lemma FiltersOrder(args: ItemsArgs, parseFloat: string -> Option<real>)
    ensures Filters(args, parseFloat).None? <==>
      (ArgTruthy(args.minPrice) && parseFloat(args.minPrice.value).None?)
      || (ArgTruthy(args.maxPrice) && parseFloat(args.maxPrice.value).None?)
    ensures Filters(args, parseFloat).Some? ==>
      Filters(args, parseFloat).value.params
        == TextFilter(args.categoryId, CategoryClause).params + TextFilter(args.city, CityClause).params
           + PriceFilter(args.minPrice, MinPriceClause, parseFloat).value.params
           + PriceFilter(args.maxPrice, MaxPriceClause, parseFloat).value.params
           + SearchFilter(args.search).params
    ensures Filters(args, parseFloat).Some? ==>
      Filters(args, parseFloat).value.sql
        == TextFilter(args.categoryId, CategoryClause).sql + TextFilter(args.city, CityClause).sql
           + PriceFilter(args.minPrice, MinPriceClause, parseFloat).value.sql
           + PriceFilter(args.maxPrice, MaxPriceClause, parseFloat).value.sql
           + SearchFilter(args.search).sql
    ensures Filters(args, parseFloat).Some? && ArgTruthy(args.search) ==>
      var ps := Filters(args, parseFloat).value.params;
      |ps| >= 2 && ps[|ps| - 2] == ps[|ps| - 1] == PStr(SearchTerm(args.search.value))
  {
  }

  /** The reply of `get_items`: a 500 where an exception is raised, or the
      listing query, the count query and the pagination block. */
  datatype ItemsReply = ItemsError | ItemsPage(listing: Fragment, count: Fragment, page: int, limit: int, total: int, pages: int)

  /** `get_items` as a value. `countRows` stands for the count query's
      `total` column (None when no row comes back). */
  function ItemsFor(args: ItemsArgs, parseFloat: string -> Option<real>, countRows: Fragment -> Option<int>): ItemsReply {
    var page := IntArg(args.page, DefaultPage);
    var limit := IntArg(args.limit, DefaultLimit);
    var filters := Filters(args, parseFloat);
    if page.None? || limit.None? || filters.None? then ItemsError
    else
      var offset := Offset(page.value, limit.value);
      var listing := Then(Then(Fragment(ItemsSql, []), filters.value),
                          Fragment(PagingClause, [PInt(limit.value), PInt(offset)]));
      var count := Then(Fragment(CountSql, []), filters.value);
      var total := countRows(count).GetOr(0);
      match Pages(total, limit.value)
      case None => ItemsError
      case Some(pages) => ItemsPage(listing, count, page.value, limit.value, total, pages)
  }

  /** `get_items`: the query text and parameters grown clause by clause,
      first for the listing, then again for the count. */
  method GetItems(args: ItemsArgs, parseFloat: string -> Option<real>, countRows: Fragment -> Option<int>)
    returns (reply: ItemsReply)
    ensures reply == ItemsFor(args, parseFloat, countRows)
  {
    var page := IntArg(args.page, DefaultPage);
    var limit := IntArg(args.limit, DefaultLimit);
    if page.None? || limit.None? {
      return ItemsError;
    }
    var offset := (page.value - 1) * limit.value;
    var query, params, ok := AppendFilters(ItemsSql, [], args, parseFloat);
    if !ok {
      return ItemsError;
    }
    query := query + PagingClause;
    params := params + [PInt(limit.value), PInt(offset)];
    var countQuery, countParams, _ := AppendFilters(CountSql, [], args, parseFloat);
    var total := countRows(Fragment(countQuery, countParams)).GetOr(0);
    if limit.value == 0 {
      return ItemsError;
    }
    var pages := FloorDiv(total + limit.value - 1, limit.value);
    reply := ItemsPage(Fragment(query, params), Fragment(countQuery, countParams), page.value, limit.value, total, pages);
  }

  /** `sql + acc` followed by `f` is `sql` followed by `acc` then `f`. */
  lemma Extend(sql: string, params: seq<Param>, acc: Fragment, f: Fragment)
    ensures sql + acc.sql + f.sql == sql + Then(acc, f).sql
    ensures params + acc.params + f.params == params + Then(acc, f).params
  {
  }

  /** The `if …: query += …; params.append(…)` steps of `get_items`; `ok` is
      false where `float()` raises. */
  method AppendFilters(sql: string, params: seq<Param>, args: ItemsArgs, parseFloat: string -> Option<real>)
    returns (q: string, ps: seq<Param>, ok: bool)
    ensures ok <==> Filters(args, parseFloat).Some?
    ensures ok ==> Then(Fragment(sql, params), Filters(args, parseFloat).value) == Fragment(q, ps)
  {
    q, ps := sql, params;
    ghost var acc := TextFilter(args.categoryId, CategoryClause);
    if ArgTruthy(args.categoryId) {
      q := q + CategoryClause;
      ps := ps + [PStr(args.categoryId.value)];
    }
    assert q == sql + acc.sql && ps == params + acc.params;
    ghost var f := TextFilter(args.city, CityClause);
    if ArgTruthy(args.city) {
      q := q + CityClause;
      ps := ps + [PStr(args.city.value)];
    }
    assert q == sql + acc.sql + f.sql && ps == params + acc.params + f.params;
    Extend(sql, params, acc, f);
    acc := Then(acc, f);
    assert q == sql + acc.sql && ps == params + acc.params;
    if ArgTruthy(args.minPrice) {
      var v := parseFloat(args.minPrice.value);
      if v.None? {
        return q, ps, false;
      }
      q := q + MinPriceClause;
      ps := ps + [PReal(v.value)];
    }
    f := PriceFilter(args.minPrice, MinPriceClause, parseFloat).value;
    assert q == sql + acc.sql + f.sql && ps == params + acc.params + f.params;
    Extend(sql, params, acc, f);
    acc := Then(acc, f);
    assert q == sql + acc.sql && ps == params + acc.params;
    if ArgTruthy(args.maxPrice) {
      var v := parseFloat(args.maxPrice.value);
      if v.None? {
        return q, ps, false;
      }
      q := q + MaxPriceClause;
      ps := ps + [PReal(v.value)];
    }
    f := PriceFilter(args.maxPrice, MaxPriceClause, parseFloat).value;
    assert q == sql + acc.sql + f.sql && ps == params + acc.params + f.params;
    Extend(sql, params, acc, f);
    acc := Then(acc, f);
    assert q == sql + acc.sql && ps == params + acc.params;
    f := SearchFilter(args.search);
    if ArgTruthy(args.search) {
      var term := "%" + args.search.value + "%";
      q := q + SearchClause;
      ps := ps + [PStr(term), PStr(term)];
    }
    assert q == sql + acc.sql + f.sql && ps == params + acc.params + f.params;
    Extend(sql, params, acc, f);
    acc := Then(acc, f);
    assert q == sql + acc.sql && ps == params + acc.params;
    assert PriceFilter(args.minPrice, MinPriceClause, parseFloat).Some?;
    assert PriceFilter(args.maxPrice, MaxPriceClause, parseFloat).Some?;
    assert Filters(args, parseFloat) == Some(acc);
    assert q == sql + acc.sql && ps == params + acc.params;
    ok := true;
  }

  /** A page reply binds one parameter per placeholder in both queries; the
      listing ends with LIMIT and OFFSET and their two values; the count
      query carries the same filters and the same parameters less those two. */
  lemma ItemsQueriesWellFormed(args: ItemsArgs, parseFloat: string -> Option<real>, countRows: Fragment -> Option<int>)
    requires ItemsFor(args, parseFloat, countRows).ItemsPage?
    ensures var r := ItemsFor(args, parseFloat, countRows);
      WellFormed(r.listing) && WellFormed(r.count)
    ensures var r := ItemsFor(args, parseFloat, countRows);
      var n := |r.listing.params|;
      n >= 2 && r.listing.params[n - 2..] == [PInt(r.limit), PInt(Offset(r.page, r.limit))]
      && r.count.params == r.listing.params[..n - 2]
      && r.listing.sql == ItemsSql + Filters(args, parseFloat).value.sql + PagingClause
      && r.count.sql == CountSql + Filters(args, parseFloat).value.sql
  {
    var f := Filters(args, parseFloat).value;
    var r := ItemsFor(args, parseFloat, countRows);
    SelectsWellFormed();
    FiltersWellFormed(args, parseFloat);
    ClausesWellFormed();
    ThenWellFormed(Fragment(ItemsSql, []), f);
    ThenWellFormed(Fragment(CountSql, []), f);
    ThenWellFormed(Then(Fragment(ItemsSql, []), f), Fragment(PagingClause, [PInt(r.limit), PInt(Offset(r.page, r.limit))]));
  }

  /** `clause` holds `n` placeholders and does not end in '%'. */
  predicate Holds(clause: string, n: nat) {
    Placeholders(clause) == n && clause != [] && clause[|clause| - 1] != '%'
  }

  /** Well-formed SQL: one parameter per placeholder, and no trailing '%'
      that a following 's' could turn into one more. */
  predicate WellFormed(f: Fragment) {
    Placeholders(f.sql) == |f.params| && (f.sql == [] || f.sql[|f.sql| - 1] != '%')
  }

  /** Sequencing keeps fragments well formed. */
  lemma ThenWellFormed(a: Fragment, b: Fragment)
    requires WellFormed(a) && WellFormed(b)
    ensures WellFormed(Then(a, b))
  {
    PlaceholdersAppend(a.sql, b.sql);
    if b.sql == [] {
      assert a.sql + b.sql == a.sql;
    } else {
      assert (a.sql + b.sql)[|a.sql + b.sql| - 1] == b.sql[|b.sql| - 1];
    }
  }

  /** The filters bind one parameter per placeholder. */
  lemma FiltersWellFormed(args: ItemsArgs, parseFloat: string -> Option<real>)
    requires Filters(args, parseFloat).Some?
    ensures WellFormed(Filters(args, parseFloat).value)
  {
    var a := TextFilter(args.categoryId, CategoryClause);
    var b := TextFilter(args.city, CityClause);
    var c := PriceFilter(args.minPrice, MinPriceClause, parseFloat).value;
    var d := PriceFilter(args.maxPrice, MaxPriceClause, parseFloat).value;
    var e := SearchFilter(args.search);
    ClausesWellFormed();
    TextFilterWellFormed(args.categoryId, CategoryClause);
    TextFilterWellFormed(args.city, CityClause);
    PriceFilterWellFormed(args.minPrice, MinPriceClause, parseFloat);
    PriceFilterWellFormed(args.maxPrice, MaxPriceClause, parseFloat);
    assert WellFormed(e);
    ThenWellFormed(a, b);
    ThenWellFormed(Then(a, b), c);
    ThenWellFormed(Then(Then(a, b), c), d);
    ThenWellFormed(Then(Then(Then(a, b), c), d), e);
    assert Filters(args, parseFloat).value == Then(Then(Then(Then(a, b), c), d), e);
  }

  lemma TextFilterWellFormed(arg: Option<string>, clause: string)
    requires Holds(clause, 1)
    ensures WellFormed(TextFilter(arg, clause))
  {
  }

  lemma PriceFilterWellFormed(arg: Option<string>, clause: string, parseFloat: string -> Option<real>)
    requires Holds(clause, 1) && PriceFilter(arg, clause, parseFloat).Some?
    ensures WellFormed(PriceFilter(arg, clause, parseFloat).value)
  {
  }

  /** Each filter clause holds one placeholder, the search and paging
      clauses two. */
  lemma ClausesWellFormed()
    ensures Holds(CategoryClause, 1) && Holds(CityClause, 1)
    ensures Holds(MinPriceClause, 1) && Holds(MaxPriceClause, 1)
    ensures Holds(SearchClause, 2) && Holds(PagingClause, 2)
  {
    OneClause(" AND i.category_id = ");
    OneClause(" AND i.city = ");
    PriceClauses();
    SearchClauseWellFormed();
    PagingClauseWellFormed();
  }

  lemma OneClause(prefix: string)
    requires '%' !in prefix
    ensures Placeholders(prefix + Placeholder) == 1 && (prefix + Placeholder)[|prefix + Placeholder| - 1] != '%'
  {
    OnePlaceholder(prefix);
  }

  lemma PriceClauses()
    ensures Placeholders(MinPriceClause) == 1 && MinPriceClause[|MinPriceClause| - 1] != '%'
    ensures Placeholders(MaxPriceClause) == 1 && MaxPriceClause[|MaxPriceClause| - 1] != '%'
  {
    var min := " AND i.daily_rental_" + "price >= ";
    var max := " AND i.daily_rental_" + "price <= ";
    assert '%' !in min && '%' !in max;
    OneClause(min);
    OneClause(max);
  }

  lemma SearchClauseWellFormed()
    ensures Placeholders(SearchClause) == 2 && SearchClause[|SearchClause| - 1] != '%'
  {
    var second := " OR i.description " + "LIKE ";
    assert '%' !in second;
    TwoClauses(" AND (i.title LIKE ", second, ")");
    assert SearchClause == " AND (i.title LIKE " + Placeholder + second + Placeholder + ")";
  }

  lemma PagingClauseWellFormed()
    ensures Placeholders(PagingClause) == 2 && PagingClause[|PagingClause| - 1] != '%'
  {
    var first := " ORDER BY " + "i.created_at DESC " + "LIMIT ";
    assert '%' !in first;
    TwoClauses(first, " OFFSET ", "");
    assert PagingClause == first + Placeholder + " OFFSET " + Placeholder + "";
  }

  /** `first%s second%s tail` with plain pieces holds two placeholders and
      does not end in '%'. */
  lemma TwoClauses(first: string, second: string, tail: string)
    requires '%' !in first && '%' !in second && '%' !in tail
    ensures Placeholders(first + Placeholder + second + Placeholder + tail) == 2
    ensures (first + Placeholder + second + Placeholder + tail)[|first + Placeholder + second + Placeholder + tail| - 1] != '%'
  {
    ClauseAppend([], first);
    assert [] + first + Placeholder == first + Placeholder;
    ClauseAppend(first + Placeholder, second);
    TextAppend(first + Placeholder + second + Placeholder, tail);
    if tail == [] {
      assert first + Placeholder + second + Placeholder + tail == first + Placeholder + second + Placeholder;
    }
  }

  /** The two SELECT heads hold no placeholder. */
  lemma SelectsWellFormed()
    ensures WellFormed(Fragment(ItemsSql, [])) && WellFormed(Fragment(CountSql, []))
  {
    ItemsSqlPlain();
    CountSqlPlain();
    NoPercentNoPlaceholder(ItemsSql);
    NoPercentNoPlaceholder(CountSql);
    assert ItemsSql[|ItemsSql| - 1] in ItemsSql;
    assert CountSql[|CountSql| - 1] in CountSql;
  }

  lemma ItemsSqlPlain()
    ensures '%' !in ItemsSql && ItemsSql != []
  {
    ColumnsPlain();
    JoinsPlain();
  }

  lemma ColumnsPlain()
    ensures '%' !in ItemColumns && '%' !in CategoryColumns && '%' !in PrimaryImage
  {
    ItemColumnsPlain();
    PrimaryImagePlain();
  }

  lemma ItemColumnsPlain()
    ensures '%' !in ItemColumns && '%' !in CategoryColumns
  {
    SelectColumnsPlain();
    CategoryColumnsPlain();
  }

  lemma SelectColumnsPlain()
    ensures '%' !in ItemColumns
  {
  }

  lemma CategoryColumnsPlain()
    ensures '%' !in CategoryColumns
  {
  }

  lemma PrimaryImagePlain()
    ensures '%' !in PrimaryImage
  {
    ImageSelectPlain();
    ImageWherePlain();
  }

  lemma ImageSelectPlain()
    ensures '%' !in ImageSelect
  {
  }

  lemma ImageWherePlain()
    ensures '%' !in ImageWhere
  {
  }

  lemma JoinsPlain()
    ensures '%' !in ItemsFrom && '%' !in CategoryJoin && '%' !in ActiveOnly
  {
    FromPlain();
    CategoryJoinPlain();
    ActiveOnlyPlain();
  }

  lemma FromPlain()
    ensures '%' !in ItemsFrom
  {
  }

  lemma CategoryJoinPlain()
    ensures '%' !in CategoryJoin
  {
  }

  lemma ActiveOnlyPlain()
    ensures '%' !in ActiveOnly
  {
  }

  lemma CountSqlPlain()
    ensures '%' !in CountSql && CountSql != []
  {
    JoinsPlain();
  }

  /** Where the reply is a 500: an unparsable page or limit, an unparsable
      price filter, or a zero limit; a missing count row reads as 0. */
  lemma ItemsErrors(args: ItemsArgs, parseFloat: string -> Option<real>, countRows: Fragment -> Option<int>)
    ensures ItemsFor(args, parseFloat, countRows).ItemsError? <==>
      IntArg(args.page, DefaultPage).None? || IntArg(args.limit, DefaultLimit).None?
      || (ArgTruthy(args.minPrice) && parseFloat(args.minPrice.value).None?)
      || (ArgTruthy(args.maxPrice) && parseFloat(args.maxPrice.value).None?)
      || IntArg(args.limit, DefaultLimit) == Some(0)
    ensures ItemsFor(args, parseFloat, countRows).ItemsPage? ==>
      var r := ItemsFor(args, parseFloat, countRows);
      r.total == (if countRows(r.count).Some? then countRows(r.count).value else 0)
      && (r.limit > 0 && r.total >= 0 ==> r.pages >= 0)
  {
    var r := ItemsFor(args, parseFloat, countRows);
    var page := IntArg(args.page, DefaultPage);
    var limit := IntArg(args.limit, DefaultLimit);
    var filters := Filters(args, parseFloat);
    FiltersOrder(args, parseFloat);
    if page.Some? && limit.Some? && filters.Some? {
      var count := Then(Fragment(CountSql, []), filters.value);
      var total := countRows(count).GetOr(0);
      if limit.value != 0 {
        assert r == ItemsPage(r.listing, count, page.value, limit.value, total, FloorDiv(total + limit.value - 1, limit.value));
        if limit.value > 0 && total >= 0 {
          PagesIsCeiling(total, limit.value);
        }
      }
    }
  }

  /** Without arguments the listing shows page 1 of 20 rows from row 0 and
      binds only the limit and the offset. */
  lemma DefaultListing(parseFloat: string -> Option<real>, countRows: Fragment -> Option<int>)
    ensures var r := ItemsFor(ItemsArgs(None, None, None, None, None, None, None), parseFloat, countRows);
      r.ItemsPage? && r.page == 1 && r.limit == 20 && r.listing.params == [PInt(20), PInt(0)] && r.count.params == []
  {
  }

  const ItemRequiredFields: seq<string> := ["title", "category_id", "daily_rental_price", "description"]

  /** The two 400 replies of `create_item`. */
  datatype ItemError = MissingItemFields | CreateFailed

  /** The `message` text of each 400 reply. */
  function ErrorText(e: ItemError): string {
    match e
    case MissingItemFields => "Missing required fields"
    case CreateFailed => "Failed to create item"
  }

  /** The reply of `create_item`. */
  datatype ItemReply = ItemFailed(status: int, error: ItemError) | ItemCreated(rowCount: int)

  predicate HasItemFields(data: map<string, Json>) {
    forall f :: f in ItemRequiredFields ==> f in data
  }

  /** The required fields, one by one. */
  lemma ItemFieldsListed(data: map<string, Json>)
    ensures HasItemFields(data) <==>
      "title" in data && "category_id" in data && "daily_rental_price" in data && "description" in data
  {
    assert ItemRequiredFields[0] == "title" && ItemRequiredFields[1] == "category_id";
    assert ItemRequiredFields[2] == "daily_rental_price" && ItemRequiredFields[3] == "description";
  }

  /** The thirteen values bound to INSERT INTO items, one per column in the
      statement's column order. */
  datatype ItemInsert = ItemInsert(
    ownerId: int, categoryId: Json, title: Json, description: Json, dailyRentalPrice: Json,
    weeklyRentalPrice: Json, monthlyRentalPrice: Json, securityDeposit: Json,
    location: Json, city: Json, country: Json, condition: Json, quantityAvailable: Json)

  /** The row `create_item` binds: the caller as owner, the four required
      values, and `data.get` of the rest. */
  function ItemRow(userId: int, data: map<string, Json>): ItemInsert
    requires HasItemFields(data)
  {
    ItemFieldsListed(data);
    ItemInsert(userId, data["category_id"], data["title"], data["description"], data["daily_rental_price"],
               Get(data, "weekly_rental_price", JNull), Get(data, "monthly_rental_price", JNull),
               Get(data, "security_deposit", JNull), Get(data, "location", JNull), Get(data, "city", JNull),
               Get(data, "country", JNull), Get(data, "condition", JStr("good")), Get(data, "quantity_available", JInt(1)))
  }

  /** `create_item`; `insert` stands for the database call and returns what
      `execute_query` returns for an INSERT, the affected row count (a falsy
      result is a 400). The reply reports that count as `item_id`. */
  function CreateItem(userId: int, data: map<string, Json>, insert: ItemInsert -> int): ItemReply {
    if !HasItemFields(data) then ItemFailed(400, MissingItemFields)
    else
      var result := insert(ItemRow(userId, data));
      if result != 0 then ItemCreated(result) else ItemFailed(400, CreateFailed)
  }

  /** A body missing title, category_id, daily_rental_price or description is
      refused before any insert, and only such a body; otherwise the item is
      created exactly when the insert result is truthy, reporting that result. */
  lemma CreateItemRequires(userId: int, data: map<string, Json>, insert: ItemInsert -> int)
    ensures CreateItem(userId, data, insert) == ItemFailed(400, MissingItemFields) <==>
      "title" !in data || "category_id" !in data || "daily_rental_price" !in data || "description" !in data
    ensures HasItemFields(data) ==>
      (CreateItem(userId, data, insert).ItemCreated? <==> insert(ItemRow(userId, data)) != 0)
      && (CreateItem(userId, data, insert).ItemCreated? ==> CreateItem(userId, data, insert).rowCount == insert(ItemRow(userId, data)))
  {
    ItemFieldsListed(data);
  }

  /** The inserted row lists the caller as owner and the four required values
      from the body, and defaults condition to "good" and the quantity to 1. */
  lemma CreateItemRow(userId: int, data: map<string, Json>)
    requires HasItemFields(data)
    ensures var row := ItemRow(userId, data);
      row.ownerId == userId
      && row.categoryId == data["category_id"] && row.title == data["title"]
      && row.description == data["description"] && row.dailyRentalPrice == data["daily_rental_price"]
    ensures "condition" !in data ==> ItemRow(userId, data).condition == JStr("good")
    ensures "quantity_available" !in data ==> ItemRow(userId, data).quantityAvailable == JInt(1)
  {
  }
}
