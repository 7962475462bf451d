/** The catalogue service (backend/src/controllers/productController.js): a paginated,
    optionally category-filtered listing, newest first, and a lookup by id. Both LEFT JOIN
    each product with its category. */
module ProductController {
  import opened Common
  import opened Http
  import opened Seqs
  import opened Db

  // ---- the LEFT JOIN with categories ---------------------------------------------------

  /** One row of `products p LEFT JOIN categories c ON p.category_id = c.id`. */
  datatype ProductView = ProductView(id: int, name: string, description: string, price: int,
                                     imageUrl: string, stock: int,
                                     categoryId: Option<int>, categoryName: Option<string>)

  function FindCategory(categories: seq<Category>, id: Option<int>): (r: Option<Category>)
    ensures r.Some? ==> id.Some? && r.value in categories && r.value.id == id.value
    ensures r.None? <==> id.None? || forall k :: 0 <= k < |categories| ==> categories[k].id != id.value
  {
    if id.None? || categories == [] then None
    else if categories[0].id == id.value then Some(categories[0])
    else FindCategory(categories[1..], id)
  }

  /** A product with its category's id and name, both null when the product has no category
      or its category row is missing. */
  function ViewOf(p: Product, categories: seq<Category>): (v: ProductView)
    ensures v.id == p.id && v.price == p.price && v.stock == p.stock
    ensures v.name == p.name && v.description == p.description && v.imageUrl == p.imageUrl
    ensures v.categoryId.Some? <==> v.categoryName.Some?
    ensures v.categoryId.Some? <==> FindCategory(categories, p.categoryId).Some?
    ensures v.categoryId.Some? ==> v.categoryId == p.categoryId
    ensures v.categoryName.Some? ==> v.categoryName.value == FindCategory(categories, p.categoryId).value.name
  {
    match FindCategory(categories, p.categoryId)
    case None => ProductView(p.id, p.name, p.description, p.price, p.imageUrl, p.stock, None, None)
    case Some(c) => ProductView(p.id, p.name, p.description, p.price, p.imageUrl, p.stock, Some(c.id), Some(c.name))
  }

  function Views(rows: seq<Product>, categories: seq<Category>): seq<ProductView>
  {
    seq(|rows|, i requires 0 <= i < |rows| => ViewOf(rows[i], categories))
  }

  // ---- getProductById ------------------------------------------------------------------

  /** GET /products/:id. The path segment is taken as the integer it spells. */
  function GetProductById(products: seq<Product>, categories: seq<Category>, id: int): (r: Reply<ProductView>)
    ensures r.Ok? <==> exists k :: 0 <= k < |products| && products[k].id == id
    ensures r.Ok? ==> r.status == 200 && r.body.id == id && ViewOf(FindProduct(products, id).value, categories) == r.body
    ensures r.Err? ==> r == Err(404, ProductIdNotFound)
  {
    match FindProduct(products, id)
    case None => Err(404, ProductIdNotFound)
    case Some(p) => Ok(200, ViewOf(p, categories))
  }

  /** With unique ids, the lookup returns the very row that carries the id. */
  lemma ProductByIdIsThatRow(products: seq<Product>, categories: seq<Category>, k: int)
    requires ProductsOk(products) && 0 <= k < |products|
    ensures GetProductById(products, categories, products[k].id) == Ok(200, ViewOf(products[k], categories))
  {
    FindProductById(products, k);
  }

  // ---- getAllProducts: the queries -----------------------------------------------------

  /** The pieces of SQL text the handler concatenates. */
  datatype Clause = SelectJoined | CountAll | WhereCategory | OrderNewestFirst | LimitOffset

  datatype Query = Query(sql: seq<Clause>, params: seq<int>)

  /** The category a query filters on: its first parameter, when it has a WHERE clause. */
  function FilterOf(q: Query): Option<int>
  {
    if WhereCategory in q.sql && |q.params| > 0 then Some(q.params[0]) else None
  }

  datatype Bounds = Bounds(limit: int, offset: int)

  /** The LIMIT and OFFSET a query binds: its last two parameters. */
  function BoundsOf(q: Query): Option<Bounds>
  {
    if LimitOffset in q.sql && |q.params| >= 2 then Some(Bounds(q.params[|q.params| - 2], q.params[|q.params| - 1]))
    else None
  }

  /** The two queries of getAllProducts, built by appending to the SQL text and the parameter
      lists as the handler does. The same category filter reaches both, and only the page
      query is ordered and windowed. */
  method BuildQueries(categoryId: Option<int>, limit: int, offset: int) returns (page: Query, count: Query)
    ensures FilterOf(page) == categoryId && FilterOf(count) == categoryId
    ensures OrderNewestFirst in page.sql && BoundsOf(page) == Some(Bounds(limit, offset))
    ensures OrderNewestFirst !in count.sql && BoundsOf(count) == None
  {
    var sql := [SelectJoined];
    var params: seq<int> := [];
    var countSqlParams: seq<int> := [];
    if categoryId.Some? {
      sql := sql + [WhereCategory];
      params := params + [categoryId.value];
      countSqlParams := countSqlParams + [categoryId.value];
    }
    sql := sql + [OrderNewestFirst, LimitOffset];
    params := params + [limit, offset];
    var countSql := [CountAll];
    if categoryId.Some? {
      countSql := countSql + [WhereCategory];
    }
    page := Query(sql, params);
    count := Query(countSql, countSqlParams);
  }

  // ---- getAllProducts: evaluating them -------------------------------------------------

  function InCategory(categoryId: Option<int>): Product -> bool
  {
    (p: Product) => categoryId.None? || p.categoryId == categoryId
  }

  /** `WHERE p.category_id = ?` when a category is given; every product otherwise. */
  function Matching(products: seq<Product>, categoryId: Option<int>): seq<Product>
  {
    Keep(products, InCategory(categoryId))
  }

  function Newest(p: Product): int
  {
    p.createdAt
  }

  function Max(a: int, b: int): int { if a >= b then a else b }
  function Min(a: int, b: int): int { if a <= b then a else b }

  /** `LIMIT limit OFFSET offset` as SQLite reads them: a negative offset counts as zero and a
      negative limit means no limit. The window is a contiguous run of `s` from the offset,
      as long as the limit allows and the rows last. */
  function Window<T>(s: seq<T>, limit: int, offset: int): (w: seq<T>)
    ensures var start := Max(offset, 0);
            && (limit >= 0 ==> |w| <= limit)
            && (|w| > 0 ==> start + |w| <= |s|)
            && (forall i :: 0 <= i < |w| ==> w[i] == s[start + i])
            && (|w| > 0 <==> start < |s| && limit != 0)
            && (start < |s| ==> start + |w| == |s| || |w| == limit)
  {
    var start := Max(offset, 0);
    if start >= |s| then []
    else if limit < 0 then s[start..]
    else s[start..Min(start + limit, |s|)]
  }

  /** What the database answers to one of the two queries: the filtered products, ordered
      newest first if the query says so, and windowed if it has a LIMIT. */
  function Run(q: Query, products: seq<Product>): seq<Product>
  {
    var matching := Matching(products, FilterOf(q));
    var ordered := if OrderNewestFirst in q.sql then SortDesc(matching, Newest) else matching;
    match BoundsOf(q)
    case None => ordered
    case Some(b) => Window(ordered, b.limit, b.offset)
  }

  /** The WHERE clause keeps exactly the products of the requested category, or every
      product when no category is requested. */
  lemma MatchingMembers(products: seq<Product>, categoryId: Option<int>)
    ensures forall i :: 0 <= i < |Matching(products, categoryId)| ==>
              Matching(products, categoryId)[i] in products &&
              (categoryId.Some? ==> Matching(products, categoryId)[i].categoryId == Some(categoryId.value))
    ensures forall k :: 0 <= k < |products| && (categoryId.None? || products[k].categoryId == Some(categoryId.value)) ==>
              products[k] in Matching(products, categoryId)
  {
    KeepMembers(products, InCategory(categoryId));
  }

  /** Running a query answers matching products only, each at most as often as it matches;
      without LIMIT/OFFSET it answers all of them. */
  lemma RunWithinMatching(q: Query, products: seq<Product>)
    ensures multiset(Run(q, products)) <= multiset(Matching(products, FilterOf(q)))
    ensures BoundsOf(q).None? ==> multiset(Run(q, products)) == multiset(Matching(products, FilterOf(q)))
  {
    var matching := Matching(products, FilterOf(q));
    var ordered := if OrderNewestFirst in q.sql then SortDesc(matching, Newest) else matching;
    assert multiset(ordered) == multiset(matching);
    if BoundsOf(q).Some? {
      WindowSubMultiset(ordered, BoundsOf(q).value.limit, BoundsOf(q).value.offset);
    }
  }

  // ---- getAllProducts: pagination arithmetic -------------------------------------------

  /** `page = 1` when the query string has no page. */
  function PageNumber(page: Option<int>): (n: int)
    ensures page.None? ==> n == 1
    ensures page.Some? ==> n == page.value
  {
    if page.Some? then page.value else 1
  }

  /** `limit = 10` when the query string has no limit. */
  function PageSize(limit: Option<int>): (size: int)
    ensures limit.None? ==> size == 10
    ensures limit.Some? ==> size == limit.value
  {
    if limit.Some? then limit.value else 10
  }

  /** `Math.ceil(total / limit)`: the fewest pages of `size` rows that hold `total` rows. */
  function CeilDiv(total: int, size: int): (pages: nat)
    requires size > 0
    ensures total <= pages * size
    ensures (pages - 1) * size < total || pages == 0
    ensures total <= 0 <==> pages == 0
    decreases total
  {
    if total <= 0 then 0 else 1 + CeilDiv(total - size, size)
  }

  /** The rows of one page: matching products, newest first, skipping (page − 1) × size.
      A size of 0 gives no rows and a negative size no limit, as SQLite reads LIMIT. */
  function PageRows(products: seq<Product>, categoryId: Option<int>, number: int, size: int): (rows: seq<Product>)
    ensures size >= 0 ==> |rows| <= size
    ensures NonIncreasing(rows, Newest)
    ensures forall i :: 0 <= i < |rows| ==> rows[i] in products && InCategory(categoryId)(rows[i])
    ensures |rows| > 0 <==> size != 0 && Max((number - 1) * size, 0) < |Matching(products, categoryId)|
  {
    var matching := Matching(products, categoryId);
    var sorted := SortDesc(matching, Newest);
    var offset := (number - 1) * size;
    var rows := Window(sorted, size, offset);
    WindowOfSorted(sorted, size, offset, Newest);
    KeepMembers(products, InCategory(categoryId));
    forall i | 0 <= i < |rows| ensures rows[i] in products && InCategory(categoryId)(rows[i]) {
      assert rows[i] == sorted[Max(offset, 0) + i];
      assert rows[i] in multiset(matching);
    }
    rows
  }

  /** What SQL promises of a page whatever the order of equal keys: as many rows as the
      limit allows from the offset on (all of them for a negative limit), and none of them
      more often than among the matching products. */
  /** The page is the run of the newest-first matches that starts at the offset (read as 0
      when negative): its i-th row is the match ranked offset + i + 1. */
  lemma PageRowsAt(products: seq<Product>, categoryId: Option<int>, number: int, size: int)
    ensures var rows := PageRows(products, categoryId, number, size);
            var sorted := SortDesc(Matching(products, categoryId), Newest);
            var start := Max((number - 1) * size, 0);
            && (|rows| > 0 ==> start + |rows| <= |sorted|)
            && forall i :: 0 <= i < |rows| ==> rows[i] == sorted[start + i]
  {
    var sorted := SortDesc(Matching(products, categoryId), Newest);
    assert PageRows(products, categoryId, number, size) == Window(sorted, size, (number - 1) * size);
  }

  lemma PageRowsCount(products: seq<Product>, categoryId: Option<int>, number: int, size: int)
    ensures var rows := PageRows(products, categoryId, number, size);
            var rest := |Matching(products, categoryId)| - Max((number - 1) * size, 0);
            && (size >= 0 ==> |rows| == Max(0, Min(size, rest)))
            && (size < 0 ==> |rows| == Max(0, rest))
            && multiset(rows) <= multiset(Matching(products, categoryId))
  {
    var matching := Matching(products, categoryId);
    var sorted := SortDesc(matching, Newest);
    assert PageRows(products, categoryId, number, size) == Window(sorted, size, (number - 1) * size);
    WindowLength(sorted, size, (number - 1) * size);
    WindowSubMultiset(sorted, size, (number - 1) * size);
  }

  /** The length of a window: what is left after the offset, cut to the limit when there is one. */
  lemma WindowLength<T>(s: seq<T>, limit: int, offset: int)
    ensures var rest := |s| - Max(offset, 0);
            && (limit >= 0 ==> |Window(s, limit, offset)| == Max(0, Min(limit, rest)))
            && (limit < 0 ==> |Window(s, limit, offset)| == Max(0, rest))
  {
  }

  /** A window holds no element more often than the sequence it is cut from. */
  lemma WindowSubMultiset<T>(s: seq<T>, limit: int, offset: int)
    ensures multiset(Window(s, limit, offset)) <= multiset(s)
  {
    var w := Window(s, limit, offset);
    var start := Max(offset, 0);
    if |w| > 0 {
      SliceSubMultiset(s, start, start + |w|);
      assert w == s[start..start + |w|];
    }
  }

  /** A contiguous run of a sequence holds no element more often than the sequence. */
  lemma SliceSubMultiset<T>(s: seq<T>, lo: int, hi: int)
    requires 0 <= lo <= hi <= |s|
    ensures multiset(s[lo..hi]) <= multiset(s)
  {
    assert s == s[..lo] + s[lo..hi] + s[hi..];
  }

  /** A window of a newest-first sequence is newest first. */
  lemma WindowOfSorted<T>(s: seq<T>, limit: int, offset: int, key: T -> int)
    requires NonIncreasing(s, key)
    ensures NonIncreasing(Window(s, limit, offset), key)
  {
    var w := Window(s, limit, offset);
    forall i, j | 0 <= i < j < |w| ensures key(w[i]) >= key(w[j]) {
      assert w[i] == s[Max(offset, 0) + i] && w[j] == s[Max(offset, 0) + j];
    }
  }

  /** `Math.ceil(total / limit)` as the JSON answer carries it: a limit of 0 makes the
      quotient Infinity or NaN, which JSON writes as `null` (here `None`); otherwise the
      smallest whole number at or above the quotient. */
  function TotalPages(total: nat, size: int): (pages: Option<int>)
    ensures pages.None? <==> size == 0
    ensures size > 0 ==> (pages.value - 1) * size < total <= pages.value * size
    ensures size < 0 ==> pages.value * size <= total < (pages.value - 1) * size
  {
    if size == 0 then None
    else if size > 0 then Some(CeilDiv(total, size))
    else
      var d := -size;
      var q := total / d;
      assert q * d <= total < (q + 1) * d by { DivBounds(total, d); }
      Some(-q)
  }

  lemma DivBounds(n: nat, d: int)
    requires d > 0
    ensures (n / d) * d <= n < (n / d + 1) * d
  {
    assert n == (n / d) * d + n % d;
  }

  datatype Pagination = Pagination(currentPage: int, totalPages: Option<int>, totalItems: int, itemsPerPage: int)
  datatype ProductPage = ProductPage(data: seq<ProductView>, pagination: Pagination)

  /** The body getAllProducts answers with. With a positive limit, a page has rows exactly
      when some product matches and the page number is at most totalPages (a page number of
      0 or below reads as the first page); a limit of 0 gives no rows. */
  function Listing(products: seq<Product>, categories: seq<Category>, categoryId: Option<int>,
                   page: Option<int>, limit: Option<int>): (r: ProductPage)
    ensures var p := r.pagination;
            && p.currentPage == PageNumber(page) && p.itemsPerPage == PageSize(limit)
            && p.totalItems == |Matching(products, categoryId)|
            && (p.totalPages.None? <==> p.itemsPerPage == 0)
            && (p.itemsPerPage > 0 ==>
                  (p.totalPages.value - 1) * p.itemsPerPage < p.totalItems <= p.totalPages.value * p.itemsPerPage)
            && (p.itemsPerPage < 0 ==>
                  p.totalPages.value * p.itemsPerPage <= p.totalItems < (p.totalPages.value - 1) * p.itemsPerPage)
            && (p.itemsPerPage >= 0 ==> |r.data| <= p.itemsPerPage)
            && (|r.data| > 0 <==> p.itemsPerPage != 0 && Max((p.currentPage - 1) * p.itemsPerPage, 0) < p.totalItems)
            && (p.itemsPerPage > 0 ==> (|r.data| > 0 <==> p.totalItems > 0 && p.currentPage <= p.totalPages.value))
    ensures r.data == Views(PageRows(products, categoryId, PageNumber(page), PageSize(limit)), categories)
  {
    var number := PageNumber(page);
    var size := PageSize(limit);
    var total := |Matching(products, categoryId)|;
    var pages := TotalPages(total, size);
    var rows := PageRows(products, categoryId, number, size);
    var r := ProductPage(Views(rows, categories), Pagination(number, pages, total, size));
    if size > 0 then
      OffsetInsideIff(number, size, total, pages.value);
      r
    else
      r
  }

  /** With a positive limit and ⌈total / size⌉ pages, page `number` starts inside the rows
      (its offset read as 0 when negative) exactly when there are rows and `number` is at
      most the number of pages. */
  lemma OffsetInsideIff(number: int, size: int, total: int, pages: int)
    requires size > 0 && (pages - 1) * size < total <= pages * size
    ensures Max((number - 1) * size, 0) < total <==> total > 0 && number <= pages
  {
    if number <= pages {
      MulMonotonic(number - 1, pages - 1, size);
    } else {
      MulMonotonic(pages, number - 1, size);
    }
  }

  lemma MulMonotonic(a: int, b: int, c: int)
    requires a <= b && c > 0
    ensures a * c <= b * c
  {
  }

  /** GET /products: builds the two queries, runs them, and answers 200 with the page and its
      pagination data. The `!products` 404 branch cannot be taken, since the query always
      answers a list. */
  method GetAllProducts(products: seq<Product>, categories: seq<Category>, categoryId: Option<int>,
                        page: Option<int>, limit: Option<int>) returns (r: Reply<ProductPage>)
    ensures r.Ok? && r.status == 200
    ensures r.body == Listing(products, categories, categoryId, page, limit)
  {
    var number := PageNumber(page);
    var size := PageSize(limit);
    var offset := (number - 1) * size;
    var pageQuery, countQuery := BuildQueries(categoryId, size, offset);
    var rows := Run(pageQuery, products);
    var totalProducts := |Run(countQuery, products)|;
    r := Ok(200, ProductPage(Views(rows, categories),
                             Pagination(number, TotalPages(totalProducts, size), totalProducts, size)));
  }
}
