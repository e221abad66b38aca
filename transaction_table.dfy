/**
 * The transaction table (components/table/TransactionTable.tsx): the category options, the
 * search and category filters, the sort comparator, pagination by fifty rows, and the
 * component state that the sort headers, the filter inputs and the page buttons update.
 */
module TransactionTable {
  import opened Wrappers
  import opened Seqs
  import opened Sorting
  import opened Text
  import opened Ledger

  datatype SortField = Date | Amount | Category

  datatype SortDirection = Asc | Desc

  /** The category selector's value that lets every category through. */
  const AllCategories: string := "all"

  /** `itemsPerPage`. */
  const PageSize: nat := 50

  function CategoryKey(t: Transaction): Option<string> { Some(t.category) }

  function Self(s: string): string { s }

  /** `Array.from(new Set(transactions.map((t) => t.category))).sort()`. */
  function Categories(ts: seq<Transaction>): seq<string>
  {
    SortBy(GroupKeys(ts, CategoryKey), LexCmp)
  }

  /** Some transaction has category c. */
  predicate HasCategory(ts: seq<Transaction>, c: string)
  {
    exists j :: 0 <= j < |ts| && ts[j].category == c
  }

  lemma LexCmpTotal()
    ensures Total(LexCmp)
  {
    forall a: string, b: string
      ensures LexCmp(a, b) <= 0.0 || LexCmp(b, a) <= 0.0
    {
      LexCmpAntisymmetric(a, b);
    }
  }

  /** The options are the categories that occur, each once, in strictly increasing order. */
  lemma CategoriesSpec(ts: seq<Transaction>)
    ensures Distinct(Categories(ts))
    ensures forall i :: 0 < i < |Categories(ts)| ==> LexCmp(Categories(ts)[i - 1], Categories(ts)[i]) < 0.0
    ensures forall c :: c in Categories(ts) <==> HasCategory(ts, c)
  {
    var ks := GroupKeys(ts, CategoryKey);
    var cats := Categories(ts);
    GroupKeysSpec(ts, CategoryKey);
    assert DistinctBy(ks, Self);
    SortByDistinctBy(ks, LexCmp, Self);
    assert DistinctBy(cats, Self);
    LexCmpTotal();
    SortBySorted(ks, LexCmp);
    forall i | 0 < i < |cats|
      ensures LexCmp(cats[i - 1], cats[i]) < 0.0
    {
      assert Self(cats[i - 1]) != Self(cats[i]);
    }
    forall c
      ensures c in cats <==> HasCategory(ts, c)
    {
      assert c in cats <==> c in multiset(ks);
      if HasCategory(ts, c) {
        var j :| 0 <= j < |ts| && ts[j].category == c;
        assert CategoryKey(ts[j]) == Some(c);
      }
      if c in ks {
        var i :| 0 <= i < |ks| && ks[i] == c;
        var j :| 0 <= j < |ts| && CategoryKey(ts[j]) == Some(ks[i]);
      }
    }
  }

  /**
   * The search test for a non-empty query: the lowercased query occurs in the lowercased
   * description, in the lowercased recipient when there is one, or in the lowercased category.
   */
  predicate MatchesSearch(t: Transaction, query: string, lower: string -> string)
  {
    var q := lower(query);
    || Contains(lower(t.description), q)
    || (t.recipient.Some? && Contains(lower(t.recipient.value), q))
    || Contains(lower(t.category), q)
  }

  /** The category test: the selector is on "all" or names the row's category. */
  predicate MatchesCategory(t: Transaction, filter: string)
  {
    filter == AllCategories || t.category == filter
  }

  /** The search filter, applied only when the query is not empty. */
  function Searched(ts: seq<Transaction>, query: string, lower: string -> string): seq<Transaction>
  {
    if query == "" then ts else Filter(ts, t => MatchesSearch(t, query, lower))
  }

  /** The category filter, applied only when the selector is not on "all". */
  function InCategory(ts: seq<Transaction>, filter: string): seq<Transaction>
  {
    if filter == AllCategories then ts else Filter(ts, (t: Transaction) => t.category == filter)
  }

  /** The sort callback: the selected field's comparison, negated for a descending sort. */
  function Comparator(field: SortField, dir: SortDirection, localeCompare: (string, string) -> real): (Transaction, Transaction) -> real
  {
    (a: Transaction, b: Transaction) =>
      var comparison := match field
        case Date => localeCompare(a.date, b.date)
        case Amount => a.amount - b.amount
        case Category => localeCompare(a.category, b.category);
      if dir == Asc then comparison else -comparison
  }

  /** `filteredTransactions`: both filters, then a sorted copy. */
  function FilteredRows(ts: seq<Transaction>, query: string, filter: string, field: SortField, dir: SortDirection,
                        lower: string -> string, localeCompare: (string, string) -> real): seq<Transaction>
  {
    SortBy(InCategory(Searched(ts, query, lower), filter), Comparator(field, dir, localeCompare))
  }

  /** A row is shown, before pagination, when it passes the search (an empty query passes all) and the category test. */
  predicate Visible(t: Transaction, query: string, filter: string, lower: string -> string)
  {
    (query == "" || MatchesSearch(t, query, lower)) && MatchesCategory(t, filter)
  }

  lemma {:induction false} FilterFilter<T>(s: seq<T>, p: T -> bool, q: T -> bool, pq: T -> bool)
    requires forall x :: pq(x) == (p(x) && q(x))
    ensures Filter(Filter(s, p), q) == Filter(s, pq)
  {
    if s != [] {
      var s', x := s[..|s| - 1], s[|s| - 1];
      var a := Filter(s', p);
      FilterFilter(s', p, q, pq);
      assert pq(x) == (p(x) && q(x));
      if p(x) {
        assert Filter(s, p) == a + [x];
        FilterSnoc(a, x, q);
      } else {
        assert Filter(s, p) == a;
      }
    }
  }

  /** The two filters in a row keep exactly the visible rows, in their original order. */
  lemma FilteredUnsorted(ts: seq<Transaction>, query: string, filter: string, lower: string -> string)
    ensures InCategory(Searched(ts, query, lower), filter) == Filter(ts, t => Visible(t, query, filter, lower))
  {
    var search := t => MatchesSearch(t, query, lower);
    var cat := (t: Transaction) => t.category == filter;
    var visible := t => Visible(t, query, filter, lower);
    if query == "" && filter == AllCategories {
      FilterAll(ts, visible);
    } else if query == "" {
      FilterFilter(ts, (t: Transaction) => true, cat, visible);
      FilterAll(ts, (t: Transaction) => true);
    } else if filter == AllCategories {
      FilterFilter(ts, search, (t: Transaction) => true, visible);
      FilterAll(Filter(ts, search), (t: Transaction) => true);
    } else {
      FilterFilter(ts, search, cat, visible);
    }
  }

  /**
   * The table holds the visible rows and only those, each as often as in the input: a
   * reordering of the visible rows.
   */
  lemma FilteredRowsSpec(ts: seq<Transaction>, query: string, filter: string, field: SortField, dir: SortDirection,
                         lower: string -> string, localeCompare: (string, string) -> real)
    ensures multiset(FilteredRows(ts, query, filter, field, dir, lower, localeCompare))
         == multiset(Filter(ts, t => Visible(t, query, filter, lower)))
    ensures forall t :: t in FilteredRows(ts, query, filter, field, dir, lower, localeCompare)
                    <==> t in ts && Visible(t, query, filter, lower)
  {
    FilteredUnsorted(ts, query, filter, lower);
    var visible := t => Visible(t, query, filter, lower);
    var rows := FilteredRows(ts, query, filter, field, dir, lower, localeCompare);
    forall t
      ensures t in rows <==> t in ts && Visible(t, query, filter, lower)
    {
      assert t in rows <==> t in multiset(Filter(ts, visible));
    }
  }

  /** `localeCompare` orders every pair consistently: a before b exactly when b after a. */
  ghost predicate Consistent(localeCompare: (string, string) -> real)
  {
    forall a, b :: localeCompare(a, b) < 0.0 <==> localeCompare(b, a) > 0.0
  }

  /** The comparator orders every pair one way or the other, for amounts always and for strings when localeCompare is consistent. */
  lemma ComparatorTotal(field: SortField, dir: SortDirection, localeCompare: (string, string) -> real)
    requires field == Amount || Consistent(localeCompare)
    ensures Total(Comparator(field, dir, localeCompare))
  {
    var cmp := Comparator(field, dir, localeCompare);
    forall a: Transaction, b: Transaction
      ensures cmp(a, b) <= 0.0 || cmp(b, a) <= 0.0
    {
      if field == Date {
        assert localeCompare(a.date, b.date) < 0.0 <==> localeCompare(b.date, a.date) > 0.0;
      } else if field == Category {
        assert localeCompare(a.category, b.category) < 0.0 <==> localeCompare(b.category, a.category) > 0.0;
      }
    }
  }

  /** The table is in comparator order. */
  lemma FilteredRowsSorted(ts: seq<Transaction>, query: string, filter: string, field: SortField, dir: SortDirection,
                           lower: string -> string, localeCompare: (string, string) -> real)
    requires field == Amount || Consistent(localeCompare)
    ensures SortedBy(FilteredRows(ts, query, filter, field, dir, lower, localeCompare), Comparator(field, dir, localeCompare))
  {
    ComparatorTotal(field, dir, localeCompare);
    SortBySorted(InCategory(Searched(ts, query, lower), filter), Comparator(field, dir, localeCompare));
  }

  function NegAmount(t: Transaction): real { -t.amount }

  /** Sorted by amount, the table runs from the largest amount down when descending and up from the smallest when ascending. */
  lemma AmountOrder(ts: seq<Transaction>, query: string, filter: string, dir: SortDirection,
                    lower: string -> string, localeCompare: (string, string) -> real, i: nat, j: nat)
    requires i <= j < |FilteredRows(ts, query, filter, Amount, dir, lower, localeCompare)|
    ensures var rows := FilteredRows(ts, query, filter, Amount, dir, lower, localeCompare);
            if dir == Desc then rows[i].amount >= rows[j].amount else rows[i].amount <= rows[j].amount
  {
    var rows := FilteredRows(ts, query, filter, Amount, dir, lower, localeCompare);
    var cmp := Comparator(Amount, dir, localeCompare);
    FilteredRowsSorted(ts, query, filter, Amount, dir, lower, localeCompare);
    if dir == Desc {
      SortedDescending(rows, cmp, AmountOf, i, j);
    } else {
      SortedDescending(rows, cmp, NegAmount, i, j);
    }
  }

  /** `Math.ceil(n / itemsPerPage)`. */
  function TotalPages(n: nat): (r: nat)
    ensures r == 0 <==> n == 0
    ensures n > 0 ==> (r - 1) * PageSize < n <= r * PageSize
  {
    (n + PageSize - 1) / PageSize
  }

  /** `s.slice(start, end)` for non-negative bounds: both clamped to the length. */
  function Slice<T>(s: seq<T>, start: nat, end: nat): (r: seq<T>)
    ensures |r| <= if end < start then 0 else end - start
    ensures start <= |s| && start <= end ==> |r| == (if end < |s| then end else |s|) - start
    ensures forall i :: 0 <= i < |r| ==> start + i < |s| && r[i] == s[start + i]
  {
    var e := if end < |s| then end else |s|;
    if start >= e then [] else s[start..e]
  }

  /**
   * `paginatedTransactions` for page p: rows (p - 1)·50 up to p·50. Page 0 would slice
   * from -50 to 0, which is empty.
   */
  function PageOf<T>(s: seq<T>, p: nat): seq<T>
  {
    if p == 0 then [] else Slice(s, (p - 1) * PageSize, p * PageSize)
  }

  /** A page holds at most fifty rows, the ones at its offset; the pages up to the last are non-empty and those after it empty. */
  lemma PageSpec<T>(s: seq<T>, p: nat)
    ensures |PageOf(s, p)| <= PageSize
    ensures p >= 1 ==> forall i :: 0 <= i < |PageOf(s, p)| ==> PageOf(s, p)[i] == s[(p - 1) * PageSize + i]
    ensures 1 <= p <= TotalPages(|s|) ==> PageOf(s, p) != []
    ensures p > TotalPages(|s|) ==> PageOf(s, p) == []
    ensures 1 <= p < TotalPages(|s|) ==> |PageOf(s, p)| == PageSize
  {
    var n := TotalPages(|s|);
    if 1 <= p <= n {
      assert (p - 1) * PageSize <= (n - 1) * PageSize;
    }
    if p > n {
      assert (p - 1) * PageSize >= n * PageSize;
    }
    if 1 <= p < n {
      assert p * PageSize <= (n - 1) * PageSize;
      assert (p - 1) * PageSize == p * PageSize - PageSize;
    }
  }

  /** Pages 1 to k, one after the other. */
  function Pages<T>(s: seq<T>, k: nat): seq<T>
  {
    if k == 0 then [] else Pages(s, k - 1) + PageOf(s, k)
  }

  lemma {:induction false} PagesPrefix<T>(s: seq<T>, k: nat)
    ensures Pages(s, k) == s[..if k * PageSize < |s| then k * PageSize else |s|]
  {
    if k > 0 {
      PagesPrefix(s, k - 1);
      var a := if (k - 1) * PageSize < |s| then (k - 1) * PageSize else |s|;
      var b := if k * PageSize < |s| then k * PageSize else |s|;
      assert s[..b] == s[..a] + s[a..b];
    }
  }

  /** Paging through from the first page to the last shows every row once, in order. */
  lemma PagesCover<T>(s: seq<T>)
    ensures Pages(s, TotalPages(|s|)) == s
  {
    PagesPrefix(s, TotalPages(|s|));
  }

  /** The table component's state over a fixed list of transactions. */
  class TableView {
    const transactions: seq<Transaction>
    /** `String.prototype.toLowerCase`. */
    const lower: string -> string
    /** `String.prototype.localeCompare`. */
    const localeCompare: (string, string) -> real

    var searchQuery: string
    var categoryFilter: string
    var sortField: SortField
    var sortDirection: SortDirection
    var currentPage: int

    function Rows(): seq<Transaction>
      reads this
    {
      FilteredRows(transactions, searchQuery, categoryFilter, sortField, sortDirection, lower, localeCompare)
    }

    function PageCount(): nat
      reads this
    {
      TotalPages(|Rows()|)
    }

    /** The rows the table body shows. */
    function Shown(): seq<Transaction>
      reads this
      requires currentPage >= 1
    {
      PageOf(Rows(), currentPage)
    }

    /** The current page is at least 1 and at most the page count, or 1 when there are no pages. */
    predicate Valid()
      reads this
    {
      1 <= currentPage <= (if PageCount() < 1 then 1 else PageCount())
    }

    /** The initial state: no query, all categories, newest date first, page 1. */
    constructor (transactions: seq<Transaction>, lower: string -> string, localeCompare: (string, string) -> real)
      ensures this.transactions == transactions && this.lower == lower && this.localeCompare == localeCompare
      ensures searchQuery == "" && categoryFilter == AllCategories
      ensures sortField == Date && sortDirection == Desc && currentPage == 1
      ensures Valid()
    {
      this.transactions := transactions;
      this.lower := lower;
      this.localeCompare := localeCompare;
      searchQuery := "";
      categoryFilter := AllCategories;
      sortField := Date;
      sortDirection := Desc;
      currentPage := 1;
    }

    /** `handleSort`: the current field flips its direction; another field is selected, descending. */
    method HandleSort(field: SortField)
      requires Valid()
      modifies this
      ensures old(sortField) == field ==> sortDirection == (if old(sortDirection) == Asc then Desc else Asc)
      ensures old(sortField) != field ==> sortDirection == Desc
      ensures sortField == field
      ensures searchQuery == old(searchQuery) && categoryFilter == old(categoryFilter) && currentPage == old(currentPage)
      ensures multiset(Rows()) == old(multiset(Rows()))
      ensures Valid()
    {
      if sortField == field {
        sortDirection := if sortDirection == Asc then Desc else Asc;
      } else {
        sortField := field;
        sortDirection := Desc;
      }
    }

    /** Typing in the search box: the new query, back to page 1. */
    method SetSearchQuery(query: string)
      modifies this
      ensures searchQuery == query && currentPage == 1
      ensures categoryFilter == old(categoryFilter) && sortField == old(sortField) && sortDirection == old(sortDirection)
      ensures Valid()
    {
      searchQuery := query;
      currentPage := 1;
    }

    /** Choosing a category: the new filter, back to page 1. */
    method SetCategoryFilter(filter: string)
      modifies this
      ensures categoryFilter == filter && currentPage == 1
      ensures searchQuery == old(searchQuery) && sortField == old(sortField) && sortDirection == old(sortDirection)
      ensures Valid()
    {
      categoryFilter := filter;
      currentPage := 1;
    }

    /** The previous-page button: one page back, never below 1. */
    method PrevPage()
      requires Valid()
      modifies this
      ensures currentPage == if old(currentPage) - 1 < 1 then 1 else old(currentPage) - 1
      ensures searchQuery == old(searchQuery) && categoryFilter == old(categoryFilter)
      ensures sortField == old(sortField) && sortDirection == old(sortDirection)
      ensures Valid()
    {
      currentPage := if currentPage - 1 < 1 then 1 else currentPage - 1;
    }

    /** The next-page button, rendered only when there is more than one page: one page on, never past the last. */
    method NextPage()
      requires Valid() && PageCount() > 1
      modifies this
      ensures currentPage == if PageCount() < old(currentPage) + 1 then PageCount() else old(currentPage) + 1
      ensures searchQuery == old(searchQuery) && categoryFilter == old(categoryFilter)
      ensures sortField == old(sortField) && sortDirection == old(sortDirection)
      ensures Valid()
    {
      var total := PageCount();
      currentPage := if total < currentPage + 1 then total else currentPage + 1;
    }
  }
}
