/** The query string of a paginated listing request: page and limit always,
    then the sort order, the filters and the search text when present.
    `JSON.stringify` is a parameter of the serialiser, because its output
    is not modelled. */
module Pagination {
  import opened Wrappers
  import opened Text

  datatype Direction = Asc | Desc

  datatype OrderBy = OrderBy(field: string, param: Direction)

  datatype FilterOp = ContainsOp | EqualsOp | InOp | SomeOp | HasOp

  /** A filter on a field; its value is kept as the text of its JSON form. */
  datatype Filter = Filter(field: string, operator: FilterOp, value: string)

  datatype PaginatedQuery = PaginatedQuery(
    page: int,
    limit: int,
    orderBy: Option<seq<OrderBy>>,
    filters: Option<seq<Filter>>,
    search: Option<string>)

  /** "page=P&limit=L", always present. */
  function BaseSegment(q: PaginatedQuery): string {
    "page=" + IntToString(q.page) + "&limit=" + IntToString(q.limit)
  }

  /** The sort segment: present exactly when the sort list is non-empty. */
  function OrderBySegment(q: PaginatedQuery, encode: seq<OrderBy> -> string): (seg: string)
    ensures seg != "" <==> q.orderBy.Some? && |q.orderBy.value| > 0
    ensures seg != "" ==> seg == "&orderBy=" + encode(q.orderBy.value)
  {
    if q.orderBy.Some? && |q.orderBy.value| > 0 then "&orderBy=" + encode(q.orderBy.value) else ""
  }

  /** The filter segment: present exactly when the filter list is non-empty. */
  function FiltersSegment(q: PaginatedQuery, encode: seq<Filter> -> string): (seg: string)
    ensures seg != "" <==> q.filters.Some? && |q.filters.value| > 0
    ensures seg != "" ==> seg == "&filters=" + encode(q.filters.value)
  {
    if q.filters.Some? && |q.filters.value| > 0 then "&filters=" + encode(q.filters.value) else ""
  }

  /** The search segment: present exactly when the search text is non-empty,
      and then holding that text verbatim, without URL encoding. */
  function SearchSegment(q: PaginatedQuery): (seg: string)
    ensures seg != "" <==> q.search.Some? && q.search.value != ""
    ensures seg != "" ==> seg == "&search=" + q.search.value
  {
    if q.search.Some? && q.search.value != "" then "&search=" + q.search.value else ""
  }

  /** The segments in their fixed order: page, limit, orderBy, filters,
      search. */
  function QueryString(q: PaginatedQuery, encodeOrder: seq<OrderBy> -> string, encodeFilters: seq<Filter> -> string): string {
    BaseSegment(q) + OrderBySegment(q, encodeOrder) + FiltersSegment(q, encodeFilters) + SearchSegment(q)
  }

  /** `paginatedQueryToQueryString`: builds the string segment by segment. */
  method ToQueryString(q: PaginatedQuery, encodeOrder: seq<OrderBy> -> string, encodeFilters: seq<Filter> -> string)
    returns (s: string)
    ensures s == QueryString(q, encodeOrder, encodeFilters)
  {
    s := "page=" + IntToString(q.page) + "&limit=" + IntToString(q.limit);
    assert s == BaseSegment(q);
    if q.orderBy.Some? && |q.orderBy.value| > 0 {
      s := s + ("&orderBy=" + encodeOrder(q.orderBy.value));
    }
    assert s == BaseSegment(q) + OrderBySegment(q, encodeOrder);
    if q.filters.Some? && |q.filters.value| > 0 {
      s := s + ("&filters=" + encodeFilters(q.filters.value));
    }
    assert s == BaseSegment(q) + OrderBySegment(q, encodeOrder) + FiltersSegment(q, encodeFilters);
    if q.search.Some? && q.search.value != "" {
      s := s + ("&search=" + q.search.value);
    }
  }

  /** The string starts with the page and limit, and a non-empty search text
      ends it verbatim. */
  lemma PrefixAndSuffix(q: PaginatedQuery, encodeOrder: seq<OrderBy> -> string, encodeFilters: seq<Filter> -> string)
    ensures var s := QueryString(q, encodeOrder, encodeFilters);
            var b := BaseSegment(q);
            |s| >= |b| && s[..|b|] == b
    ensures q.search.Some? && q.search.value != "" ==>
              var s := QueryString(q, encodeOrder, encodeFilters);
              var t := "&search=" + q.search.value;
              |s| >= |t| && s[|s| - |t|..] == t
  {
  }

  /** A query without sort, filters or search is just its page and limit. */
  lemma PlainQuery(page: int, limit: int, encodeOrder: seq<OrderBy> -> string, encodeFilters: seq<Filter> -> string)
    ensures QueryString(PaginatedQuery(page, limit, Some([]), None, Some("")), encodeOrder, encodeFilters)
            == "page=" + IntToString(page) + "&limit=" + IntToString(limit)
  {
  }

  /** The page number can be read back from the string: for a non-negative
      page, the characters after "page=" and up to the next "&" are its
      digits, and two different pages never give the same string. */
  lemma PageReadBack(q: PaginatedQuery, encodeOrder: seq<OrderBy> -> string, encodeFilters: seq<Filter> -> string)
    requires q.page >= 0
    ensures var s := QueryString(q, encodeOrder, encodeFilters);
            var d := NatToString(q.page);
            |s| > 5 + |d| && s[5..5 + |d|] == d && s[5 + |d|] == '&' && ParseDecimal(d) == q.page
  {
    var s := QueryString(q, encodeOrder, encodeFilters);
    var d := NatToString(q.page);
    var base := BaseSegment(q);
    var tail := "&limit=" + IntToString(q.limit);
    assert IntToString(q.page) == d;
    assert base == "page=" + d + tail;
    MiddleSlice("page=", d, tail);
    PrefixSlice(base, OrderBySegment(q, encodeOrder) + FiltersSegment(q, encodeFilters) + SearchSegment(q), 5, 5 + |d|);
    assert s == base + (OrderBySegment(q, encodeOrder) + FiltersSegment(q, encodeFilters) + SearchSegment(q));
    ParseNatToString(q.page);
  }

  /** A slice inside the first part of a concatenation is a slice of that
      part. */
  lemma PrefixSlice(x: string, y: string, i: nat, j: nat)
    requires i <= j <= |x|
    ensures (x + y)[i..j] == x[i..j]
  {
    assert forall k :: 0 <= k < j - i ==> (x + y)[i..j][k] == x[i..j][k];
  }

  /** The middle part of a three-part concatenation, and the character
      following it. */
  lemma MiddleSlice(a: string, b: string, c: string)
    requires |c| > 0
    ensures |a + b + c| > |a| + |b|
    ensures (a + b + c)[|a|..|a| + |b|] == b && (a + b + c)[|a| + |b|] == c[0]
  {
    assert (a + b + c)[|a|..|a| + |b|] == b by {
      forall i | 0 <= i < |b| ensures (a + b + c)[|a|..|a| + |b|][i] == b[i] {
        assert (a + b + c)[|a| + i] == b[i];
      }
    }
  }

  lemma DistinctPagesDistinctStrings(q1: PaginatedQuery, q2: PaginatedQuery,
                                     encodeOrder: seq<OrderBy> -> string, encodeFilters: seq<Filter> -> string)
    requires q1.page >= 0 && q2.page >= 0 && q1.page != q2.page
    ensures QueryString(q1, encodeOrder, encodeFilters) != QueryString(q2, encodeOrder, encodeFilters)
  {
    PageReadBack(q1, encodeOrder, encodeFilters);
    PageReadBack(q2, encodeOrder, encodeFilters);
    var s1 := QueryString(q1, encodeOrder, encodeFilters);
    if s1 == QueryString(q2, encodeOrder, encodeFilters) {
      DigitRunUnique(s1, 5, NatToString(q1.page), NatToString(q2.page));
    }
  }

  /** A run of digits ended by '&' at a given offset is determined by the
      string. */
  lemma DigitRunUnique(s: string, at: nat, d1: string, d2: string)
    requires forall i :: 0 <= i < |d1| ==> IsDigit(d1[i])
    requires forall i :: 0 <= i < |d2| ==> IsDigit(d2[i])
    requires |s| > at + |d1| && s[at..at + |d1|] == d1 && s[at + |d1|] == '&'
    requires |s| > at + |d2| && s[at..at + |d2|] == d2 && s[at + |d2|] == '&'
    ensures d1 == d2
  {
  }
}
