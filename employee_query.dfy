/**
 * The list query of `GET /employees` (backend/routes/employees.js): the
 * case-insensitive search filter, the sort option chosen from the `sort`
 * parameter, the `skip`/`limit` page and the `total`/`totalPages` figures.
 * The collection is given as the sequence of stored records in natural
 * (insertion) order.
 */
module EmployeeQuery {
  import opened Wrappers
  import opened Text
  import opened EmployeeModel

  // ---------------------------------------------------------------- search

  /** The `$regex` with option "i" on name, email and position, read as a substring test that ignores case. */
  predicate Matches(search: string, e: Employee)
  {
    var q := ToLower(search);
    Contains(ToLower(e.name), q) || Contains(ToLower(e.email), q) || Contains(ToLower(e.position), q)
  }

  /** The records that satisfy the `$or` condition, in their original order. */
  function Select(search: string, docs: seq<Employee>): seq<Employee>
  {
    if docs == [] then []
    else (if Matches(search, docs[0]) then [docs[0]] else []) + Select(search, docs[1..])
  }

  /** `Employee.find(query)`: the `$or` condition is only added when `search` is truthy. */
  function Filter(search: string, docs: seq<Employee>): seq<Employee>
  {
    if search == "" then docs else Select(search, docs)
  }

  lemma {:induction false} SelectMembers(search: string, docs: seq<Employee>)
    ensures forall e :: e in Select(search, docs) <==> e in docs && Matches(search, e)
    ensures |Select(search, docs)| <= |docs|
    decreases |docs|
  {
    if docs != [] {
      SelectMembers(search, docs[1..]);
      assert docs == [docs[0]] + docs[1..];
    }
  }

  /** Every record matches the empty search text, so leaving the filter out changes nothing. */
  lemma {:induction false} EmptySearchSelectsAll(docs: seq<Employee>)
    ensures Select("", docs) == docs
    decreases |docs|
  {
    if docs != [] {
      assert ToLower("") == "";
      ContainsEmpty(ToLower(docs[0].name));
      EmptySearchSelectsAll(docs[1..]);
    }
  }

  lemma ContainsEmpty(s: string)
    ensures Contains(s, "")
  {
    assert OccursAt(s, "", 0);
  }

  /** A record is found exactly when it is stored and matches the search text (an empty text matches every record). */
  lemma FilterMembers(search: string, docs: seq<Employee>)
    ensures forall e :: e in Filter(search, docs) <==> e in docs && Matches(search, e)
    ensures |Filter(search, docs)| <= |docs|
  {
    SelectMembers(search, docs);
    if search == "" {
      EmptySearchSelectsAll(docs);
    }
  }

  // ---------------------------------------------------------------- sort

  /** The string paths of the schema a `sort` parameter can name. */
  datatype TextField = NameField | MobileField | EmailField | PositionField

  /** The numeric paths other than salary: `_id` (in creation order) and the timestamps. */
  datatype NumberField = IdField | CreatedAtField | UpdatedAtField

  /**
   * The sort option: none, salary high to low, or one path ascending. A
   * path the schema does not have is missing on every record, so it orders
   * nothing and is `Unsorted`.
   */
  datatype SortKey = Unsorted | SalaryDesc | TextAsc(text: TextField) | NumberAsc(number: NumberField)

  /** The `sortOption` the route builds from the `sort` parameter. */
  function SortKeyOf(sort: string): (k: SortKey)
    ensures k == SalaryDesc <==> sort == "salary"
    ensures sort == "name" ==> k == TextAsc(NameField)
    ensures k.TextAsc? <==> sort == "name" || sort == "mobile" || sort == "email" || sort == "position"
    ensures k.NumberAsc? <==> sort == "_id" || sort == "createdAt" || sort == "updatedAt"
    ensures k.TextAsc? ==> TextFieldName(k.text) == sort
    ensures k.NumberAsc? ==> NumberFieldName(k.number) == sort
    ensures sort == "" ==> k == Unsorted
  {
    if sort == "salary" then SalaryDesc
    else if sort == "name" then TextAsc(NameField)
    else if sort == "mobile" then TextAsc(MobileField)
    else if sort == "email" then TextAsc(EmailField)
    else if sort == "position" then TextAsc(PositionField)
    else if sort == "_id" then NumberAsc(IdField)
    else if sort == "createdAt" then NumberAsc(CreatedAtField)
    else if sort == "updatedAt" then NumberAsc(UpdatedAtField)
    else Unsorted
  }

  /** The document path each sort field stands for. */
  function TextFieldName(f: TextField): string
  {
    match f
    case NameField => "name"
    case MobileField => "mobile"
    case EmailField => "email"
    case PositionField => "position"
  }

  function NumberFieldName(f: NumberField): string
  {
    match f
    case IdField => "_id"
    case CreatedAtField => "createdAt"
    case UpdatedAtField => "updatedAt"
  }

  function TextAt(f: TextField, e: Employee): string
  {
    match f
    case NameField => e.name
    case MobileField => e.mobile
    case EmailField => e.email
    case PositionField => e.position
  }

  function NumberAt(f: NumberField, e: Employee): int
  {
    match f
    case IdField => e.id
    case CreatedAtField => e.createdAt
    case UpdatedAtField => e.updatedAt
  }

  /** Lexicographic order on code points. */
  predicate LexLe(a: string, b: string)
    decreases |a|
  {
    a == [] || (b != [] && (a[0] < b[0] || (a[0] == b[0] && LexLe(a[1..], b[1..]))))
  }

  lemma {:induction false} LexLeTotal(a: string, b: string)
    ensures LexLe(a, b) || LexLe(b, a)
    decreases |a|
  {
    if a != [] && b != [] && a[0] == b[0] {
      LexLeTotal(a[1..], b[1..]);
    }
  }

  lemma {:induction false} LexLeTransitive(a: string, b: string, c: string)
    requires LexLe(a, b) && LexLe(b, c)
    ensures LexLe(a, c)
    decreases |a|
  {
    if a != [] && b != [] && c != [] && a[0] == b[0] && b[0] == c[0] {
      LexLeTransitive(a[1..], b[1..], c[1..]);
    }
  }

  /** `a` may come before `b` under the sort option; text is compared ignoring case (collation strength 2). */
  predicate Le(k: SortKey, a: Employee, b: Employee)
  {
    match k
    case Unsorted => true
    case SalaryDesc => a.salary >= b.salary
    case TextAsc(f) => LexLe(ToLower(TextAt(f, a)), ToLower(TextAt(f, b)))
    case NumberAsc(f) => NumberAt(f, a) <= NumberAt(f, b)
  }

  lemma LeTotal(k: SortKey, a: Employee, b: Employee)
    ensures Le(k, a, b) || Le(k, b, a)
  {
    if k.TextAsc? {
      LexLeTotal(ToLower(TextAt(k.text, a)), ToLower(TextAt(k.text, b)));
    }
  }

  lemma LeTransitive(k: SortKey, a: Employee, b: Employee, c: Employee)
    requires Le(k, a, b) && Le(k, b, c)
    ensures Le(k, a, c)
  {
    if k.TextAsc? {
      LexLeTransitive(ToLower(TextAt(k.text, a)), ToLower(TextAt(k.text, b)), ToLower(TextAt(k.text, c)));
    }
  }

  predicate Sorted(k: SortKey, s: seq<Employee>)
  {
    forall i, j :: 0 <= i < j < |s| ==> Le(k, s[i], s[j])
  }

  /** Puts `x` after the records of `s` it does not precede, so ties keep their order. */
  function Insert(k: SortKey, x: Employee, s: seq<Employee>): seq<Employee>
    decreases |s|
  {
    if s == [] then [x]
    else if Le(k, s[|s| - 1], x) then s + [x]
    else Insert(k, x, s[..|s| - 1]) + [s[|s| - 1]]
  }

  /** `.sort(sortOption)`, stable with respect to natural order. */
  function SortBy(k: SortKey, s: seq<Employee>): seq<Employee>
    decreases |s|
  {
    if s == [] then [] else Insert(k, s[|s| - 1], SortBy(k, s[..|s| - 1]))
  }

  lemma {:induction false} InsertPermutes(k: SortKey, x: Employee, s: seq<Employee>)
    ensures multiset(Insert(k, x, s)) == multiset(s) + multiset{x}
    decreases |s|
  {
    if s != [] && !Le(k, s[|s| - 1], x) {
      InsertPermutes(k, x, s[..|s| - 1]);
      assert s == s[..|s| - 1] + [s[|s| - 1]];
    }
  }

  lemma {:induction false} InsertSorted(k: SortKey, x: Employee, s: seq<Employee>)
    requires Sorted(k, s)
    ensures Sorted(k, Insert(k, x, s))
    decreases |s|
  {
    if s == [] {
    } else if Le(k, s[|s| - 1], x) {
      var r := s + [x];
      forall i, j | 0 <= i < j < |r|
        ensures Le(k, r[i], r[j])
      {
        if j == |s| && i < |s| - 1 {
          LeTransitive(k, s[i], s[|s| - 1], x);
        }
      }
    } else {
      var last := s[|s| - 1];
      var init := s[..|s| - 1];
      LeTotal(k, last, x);
      InsertSorted(k, x, init);
      InsertPermutes(k, x, init);
      var t := Insert(k, x, init);
      forall i | 0 <= i < |t|
        ensures Le(k, t[i], last)
      {
        assert t[i] in multiset(t);
        if t[i] != x {
          assert t[i] in multiset(init);
          var m :| 0 <= m < |init| && init[m] == t[i];
          assert s[m] == t[i];
        }
      }
      var r := t + [last];
      forall i, j | 0 <= i < j < |r|
        ensures Le(k, r[i], r[j])
      {
        if j == |t| {
          assert r[i] == t[i];
        }
      }
    }
  }

  /** The sorted listing holds the same records, as many times each. */
  lemma {:induction false} SortByPermutes(k: SortKey, s: seq<Employee>)
    ensures multiset(SortBy(k, s)) == multiset(s)
    decreases |s|
  {
    if s != [] {
      SortByPermutes(k, s[..|s| - 1]);
      InsertPermutes(k, s[|s| - 1], SortBy(k, s[..|s| - 1]));
      assert s == s[..|s| - 1] + [s[|s| - 1]];
    }
  }

  /** The sorted listing is in the order the sort option asks for. */
  lemma {:induction false} SortBySorted(k: SortKey, s: seq<Employee>)
    ensures Sorted(k, SortBy(k, s))
    decreases |s|
  {
    if s != [] {
      SortBySorted(k, s[..|s| - 1]);
      InsertSorted(k, s[|s| - 1], SortBy(k, s[..|s| - 1]));
    }
  }

  /** With no sort option the records come in natural order. */
  lemma {:induction false} UnsortedKeepsOrder(s: seq<Employee>)
    ensures SortBy(Unsorted, s) == s
    decreases |s|
  {
    if s != [] {
      UnsortedKeepsOrder(s[..|s| - 1]);
      assert s == s[..|s| - 1] + [s[|s| - 1]];
    }
  }

  // ---------------------------------------------------------------- page

  /** `Math.ceil(n / d)` for a positive `d`: the fewest pages of `d` that hold `n` records. */
  function CeilDiv(n: nat, d: nat): (q: nat)
    requires d > 0
    ensures n <= q * d < n + d
  {
    var q := (n + d - 1) / d;
    assert q * d <= n + d - 1 < q * d + d;
    q
  }

  /** `.skip(from).limit(limit)`: at most `limit` records, starting at index `from`. */
  function PageOf(s: seq<Employee>, from: nat, limit: nat): (r: seq<Employee>)
    ensures |r| <= limit
    ensures |r| == if from >= |s| then 0 else Min(limit, |s| - from)
    ensures forall i :: 0 <= i < |r| ==> from + i < |s| && r[i] == s[from + i]
  {
    if from >= |s| then [] else s[from..from + Min(limit, |s| - from)]
  }

  function Min(a: int, b: int): int
  {
    if a <= b then a else b
  }

  // ---------------------------------------------------------------- the route

  /** `req.query`: an absent `search` or `sort` is the empty string; an absent `page` or `limit` is `None`. */
  datatype ListQuery = ListQuery(search: string, sort: string, page: Option<int>, limit: Option<int>)

  /** The page and page size in force, with the route's defaults 1 and 5. */
  function PageNumber(q: ListQuery): int { q.page.GetOr(1) }
  function PageSize(q: ListQuery): int { q.limit.GetOr(5) }

  predicate Paged(q: ListQuery)
  {
    PageNumber(q) >= 1 && PageSize(q) >= 1
  }

  /** `(page - 1) * limit`, the number of sorted matches the page skips. */
  function Skip(q: ListQuery): nat
    requires Paged(q)
  {
    SkipNonNegative(PageNumber(q) - 1, PageSize(q));
    (PageNumber(q) - 1) * PageSize(q)
  }

  lemma SkipNonNegative(a: nat, b: nat)
    ensures a * b >= 0
  {
  }

  /** The body `{data, total, page, totalPages}` of a successful list. */
  datatype Listing = Listing(data: seq<Employee>, total: nat, page: int, totalPages: nat)

  /** The matching records in listing order, before paging. */
  function Ranked(docs: seq<Employee>, q: ListQuery): seq<Employee>
  {
    SortBy(SortKeyOf(q.sort), Filter(q.search, docs))
  }

  /** Filter, then sort, then skip and limit; `total` counts every matching record. */
  function List(docs: seq<Employee>, q: ListQuery): (r: Listing)
    requires Paged(q)
    ensures r.total == |Filter(q.search, docs)|
    ensures r.page == PageNumber(q)
    ensures r.total <= r.totalPages * PageSize(q) < r.total + PageSize(q)
    ensures |r.data| <= PageSize(q)
  {
    var matching := Filter(q.search, docs);
    Listing(PageOf(Ranked(docs, q), Skip(q), PageSize(q)), |matching|, PageNumber(q), CeilDiv(|matching|, PageSize(q)))
  }

  /** The page is the slice of the ranked matches that starts after the skipped ones. */
  lemma ListedSlice(docs: seq<Employee>, q: ListQuery)
    requires Paged(q)
    ensures var r := List(docs, q);
      && |Ranked(docs, q)| == r.total
      && |r.data| == (if Skip(q) >= r.total then 0 else Min(PageSize(q), r.total - Skip(q)))
      && forall i :: 0 <= i < |r.data| ==> Skip(q) + i < r.total && r.data[i] == Ranked(docs, q)[Skip(q) + i]
  {
    SortByPermutes(SortKeyOf(q.sort), Filter(q.search, docs));
    assert |multiset(Ranked(docs, q))| == |multiset(Filter(q.search, docs))|;
  }

  /** With no `page` parameter the route lists the first `limit` matches, or all of them when there are fewer. */
  lemma FirstPageByDefault(docs: seq<Employee>, q: ListQuery)
    requires q.page.None? && Paged(q)
    ensures List(docs, q).data == Ranked(docs, q)[..Min(PageSize(q), |Ranked(docs, q)|)]
  {
    ListedSlice(docs, q);
  }

  /** Every listed record is stored and matches the search text. */
  lemma ListedRecordsMatch(docs: seq<Employee>, q: ListQuery)
    requires Paged(q)
    ensures forall e :: e in List(docs, q).data ==> e in docs && Matches(q.search, e)
  {
    var matching := Filter(q.search, docs);
    var ranked := Ranked(docs, q);
    FilterMembers(q.search, docs);
    SortByPermutes(SortKeyOf(q.sort), matching);
    ListedSlice(docs, q);
    var data := List(docs, q).data;
    forall e | e in data
      ensures e in docs && Matches(q.search, e)
    {
      var i :| 0 <= i < |data| && data[i] == e;
      assert ranked[Skip(q) + i] == e;
      assert e in multiset(ranked);
      assert e in matching;
    }
  }

  /** The listed page is in the order the `sort` parameter asks for. */
  lemma ListedInOrder(docs: seq<Employee>, q: ListQuery)
    requires Paged(q)
    ensures Sorted(SortKeyOf(q.sort), List(docs, q).data)
  {
    var k := SortKeyOf(q.sort);
    var ranked := Ranked(docs, q);
    SortBySorted(k, Filter(q.search, docs));
    ListedSlice(docs, q);
    var data := List(docs, q).data;
    forall i, j | 0 <= i < j < |data|
      ensures Le(k, data[i], data[j])
    {
      assert data[i] == ranked[Skip(q) + i] && data[j] == ranked[Skip(q) + j];
    }
  }

  /** A page past the last one is empty, while `total` still counts every match. */
  lemma BeyondLastPage(docs: seq<Employee>, q: ListQuery)
    requires Paged(q)
    requires PageNumber(q) > List(docs, q).totalPages
    ensures List(docs, q).data == []
    ensures List(docs, q).total == |Filter(q.search, docs)|
  {
    var r := List(docs, q);
    PastEveryPage(PageNumber(q) - 1, PageSize(q), r.total, r.totalPages);
    ListedSlice(docs, q);
  }

  lemma PastEveryPage(before: nat, limit: nat, total: nat, pages: nat)
    requires before >= pages && total <= pages * limit
    ensures before * limit >= total
  {
    assert (before - pages) * limit >= 0;
  }

  /**
   * The pages split the ranked matches: entry `j` of page `k + 1` is the
   * match at position `k * limit + j`, and that page is at most `totalPages`.
   */
  lemma PagesCover(docs: seq<Employee>, q: ListQuery, k: nat, j: nat)
    requires Paged(q)
    requires j < PageSize(q) && k * PageSize(q) + j < |Ranked(docs, q)|
    ensures k + 1 <= List(docs, q).totalPages
    ensures var p := q.(page := Some(k + 1));
      && j < |List(docs, p).data|
      && List(docs, p).data[j] == Ranked(docs, q)[k * PageSize(q) + j]
  {
    var n := PageSize(q);
    var p := q.(page := Some(k + 1));
    ListedSlice(docs, q);
    PageBelowLast(k, n, List(docs, q).total, List(docs, q).totalPages);
    SkipOfPage(p, k);
    ListedSlice(docs, p);
  }

  lemma PageBelowLast(k: nat, n: nat, total: nat, pages: nat)
    requires n >= 1 && k * n < total <= pages * n
    ensures k < pages
  {
    assert (pages - k) * n > 0;
  }

  lemma SkipOfPage(p: ListQuery, k: nat)
    requires p.page == Some(k + 1) && PageSize(p) >= 1
    ensures Paged(p) && Skip(p) == k * PageSize(p)
  {
  }
}
