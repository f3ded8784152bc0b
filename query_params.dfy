/** The query string `loadJobs` sends to `/jobs/search`: one (key, value) pair
    per truthy filter, in a fixed order, then the two sort keys. Pairs are kept
    raw; percent-encoding by `URLSearchParams` is outside the model. */
module QueryParams {
  import opened Wrappers
  import opened IsoDates
  import opened Filters

  /** The options of the "Ordenação" select boxes. */
  datatype SortField = ByCollectedAt | BySalaryRaw | ByJobTitle | ByCompany
  datatype SortOrder = Desc | Asc

  const DefaultSortBy: SortField := ByCollectedAt
  const DefaultSortOrder: SortOrder := Desc

  function SortByName(s: SortField): string {
    match s
    case ByCollectedAt => "collected_at"
    case BySalaryRaw => "salary_raw"
    case ByJobTitle => "job_title"
    case ByCompany => "company"
  }

  function SortOrderName(o: SortOrder): string {
    match o
    case Desc => "desc"
    case Asc => "asc"
  }

  function ParseSortBy(s: string): Option<SortField> {
    if s == "collected_at" then Some(ByCollectedAt)
    else if s == "salary_raw" then Some(BySalaryRaw)
    else if s == "job_title" then Some(ByJobTitle)
    else if s == "company" then Some(ByCompany)
    else None
  }

  function ParseSortOrder(s: string): Option<SortOrder> {
    if s == "desc" then Some(Desc) else if s == "asc" then Some(Asc) else None
  }

  /** The keys the query can hold; `KeyName` is the text `append` is given. */
  datatype ParamKey = FilterKey(field: Field) | SortByKey | SortOrderKey

  function KeyName(k: ParamKey): string {
    match k
    case FilterKey(Company) => "company"
    case FilterKey(SourceRegion) => "source_region"
    case FilterKey(Location) => "location"
    case FilterKey(JobTitle) => "job_title"
    case FilterKey(DateFrom) => "dateFrom"
    case FilterKey(DateTo) => "dateTo"
    case SortByKey => "sortBy"
    case SortOrderKey => "sortOrder"
  }

  type Param = (ParamKey, string)

  /** The raw (key, value) text pairs held by the `URLSearchParams` buffer. */
  function Render(q: seq<Param>): (r: seq<(string, string)>)
    ensures |r| == |q|
    ensures forall i :: 0 <= i < |q| ==> r[i] == (KeyName(q[i].0), q[i].1)
  {
    if q == [] then [] else [(KeyName(q[0].0), q[0].1)] + Render(q[1..])
  }

  /** Distinct keys are sent under distinct names, so the rendered text loses nothing. */
  lemma KeyNamesDistinct(a: ParamKey, b: ParamKey)
    ensures KeyName(a) == KeyName(b) <==> a == b
  {
  }

  /** Two buffers with the same text pairs hold the same keys and values. */
  lemma RenderInjective(q1: seq<Param>, q2: seq<Param>)
    requires Render(q1) == Render(q2)
    ensures q1 == q2
  {
    forall i | 0 <= i < |q1|
      ensures q1[i] == q2[i]
    {
      assert Render(q1)[i] == Render(q2)[i];
      KeyNamesDistinct(q1[i].0, q2[i].0);
    }
  }

  /** The text a truthy filter value is sent as: the string itself, or the
      date part of the date's ISO timestamp. */
  function ParamValue(v: Value): string {
    match v
    case Text(s) => s
    case When(Some(t)) => DatePart(t)
    case When(None) => ""
  }

  /** The order in which `loadJobs` tests the filters. */
  const FilterOrder: seq<Field> := [Company, SourceRegion, Location, JobTitle, DateFrom, DateTo]

  /** What the `if (filters.x) params.append(...)` line for one filter adds. */
  function FieldParam(f: FilterRecord, field: Field): (r: seq<Param>)
    ensures |r| <= 1 && (r != [] <==> Truthy(Get(f, field)))
    ensures r != [] ==> r == [(FilterKey(field), ParamValue(Get(f, field)))]
  {
    if Truthy(Get(f, field)) then [(FilterKey(field), ParamValue(Get(f, field)))] else []
  }

  /** What the `if` lines for `fields`, run in order, add to the buffer. */
  function FieldParams(f: FilterRecord, fields: seq<Field>): (r: seq<Param>)
    ensures |r| <= |fields|
  {
    if fields == [] then []
    else FieldParams(f, fields[..|fields| - 1]) + FieldParam(f, fields[|fields| - 1])
  }

  /** Every pair the filter steps add is under the key of one of those filters. */
  lemma {:induction false} FieldParamsKeys(f: FilterRecord, fields: seq<Field>)
    ensures forall i :: 0 <= i < |FieldParams(f, fields)| ==>
      FieldParams(f, fields)[i].0.FilterKey? && FieldParams(f, fields)[i].0.field in fields
  {
    if fields != [] {
      var init := fields[..|fields| - 1];
      FieldParamsKeys(f, init);
      forall i | 0 <= i < |FieldParams(f, fields)|
        ensures FieldParams(f, fields)[i].0.FilterKey? && FieldParams(f, fields)[i].0.field in fields
      {
        var a := FieldParams(f, init);
        if i < |a| {
          assert FieldParams(f, fields)[i] == a[i];
          assert a[i].0.field in init;
        } else {
          assert FieldParams(f, fields)[i] == FieldParam(f, fields[|fields| - 1])[0];
        }
      }
    }
  }

  /** The whole query: the filters in order, then `sortBy` and `sortOrder`. */
  function Query(f: FilterRecord, sortBy: SortField, sortOrder: SortOrder): (r: seq<Param>)
    ensures 2 <= |r| <= 8
    ensures r[|r| - 2] == (SortByKey, SortByName(sortBy))
    ensures r[|r| - 1] == (SortOrderKey, SortOrderName(sortOrder))
  {
    FieldParams(f, FilterOrder) + [(SortByKey, SortByName(sortBy)), (SortOrderKey, SortOrderName(sortOrder))]
  }

  /** The `URLSearchParams` buffer of `loadJobs`, filled one `append` at a time. */
  method BuildQuery(f: FilterRecord, sortBy: SortField, sortOrder: SortOrder)
    returns (params: seq<Param>)
    ensures params == Query(f, sortBy, sortOrder)
  {
    params := [];
    if f.company != "" { params := params + [(FilterKey(Company), f.company)]; }
    ghost var done := FieldParam(f, Company);
    assert params == done;
    if f.sourceRegion != "" { params := params + [(FilterKey(SourceRegion), f.sourceRegion)]; }
    done := done + FieldParam(f, SourceRegion);
    assert params == done;
    if f.location != "" { params := params + [(FilterKey(Location), f.location)]; }
    done := done + FieldParam(f, Location);
    assert params == done;
    if f.jobTitle != "" { params := params + [(FilterKey(JobTitle), f.jobTitle)]; }
    done := done + FieldParam(f, JobTitle);
    assert params == done;
    if f.dateFrom.Some? { params := params + [(FilterKey(DateFrom), DatePart(f.dateFrom.value))]; }
    done := done + FieldParam(f, DateFrom);
    assert params == done;
    if f.dateTo.Some? { params := params + [(FilterKey(DateTo), DatePart(f.dateTo.value))]; }
    done := done + FieldParam(f, DateTo);
    assert params == done;
    params := params + [(SortByKey, SortByName(sortBy))];
    params := params + [(SortOrderKey, SortOrderName(sortOrder))];
    QueryFromParts(f, sortBy, sortOrder, done, params);
  }

  /** One more filter adds that filter's step after the others. */
  lemma FieldParamsSnoc(f: FilterRecord, init: seq<Field>, g: Field)
    ensures FieldParams(f, init + [g]) == FieldParams(f, init) + FieldParam(f, g)
  {
    assert (init + [g])[..|init|] == init;
  }

  /** The filter steps for up to six filters are the single steps in turn. */
  lemma FieldParamsOf2(f: FilterRecord, g1: Field, g2: Field)
    ensures FieldParams(f, [g1, g2]) == FieldParam(f, g1) + FieldParam(f, g2)
  {
    FieldParamsSnoc(f, [], g1);
    assert [] + [g1] == [g1];
    FieldParamsSnoc(f, [g1], g2);
    assert [g1] + [g2] == [g1, g2];
  }

  lemma FieldParamsOf3(f: FilterRecord, g1: Field, g2: Field, g3: Field)
    ensures FieldParams(f, [g1, g2, g3]) == FieldParam(f, g1) + FieldParam(f, g2) + FieldParam(f, g3)
  {
    FieldParamsOf2(f, g1, g2);
    FieldParamsSnoc(f, [g1, g2], g3);
    assert [g1, g2] + [g3] == [g1, g2, g3];
  }

  lemma FieldParamsOf4(f: FilterRecord, g1: Field, g2: Field, g3: Field, g4: Field)
    ensures FieldParams(f, [g1, g2, g3, g4]) == FieldParam(f, g1) + FieldParam(f, g2) + FieldParam(f, g3) + FieldParam(f, g4)
  {
    FieldParamsOf3(f, g1, g2, g3);
    FieldParamsSnoc(f, [g1, g2, g3], g4);
    assert [g1, g2, g3] + [g4] == [g1, g2, g3, g4];
  }

  lemma FieldParamsOf5(f: FilterRecord, g1: Field, g2: Field, g3: Field, g4: Field, g5: Field)
    ensures FieldParams(f, [g1, g2, g3, g4, g5]) == FieldParam(f, g1) + FieldParam(f, g2) + FieldParam(f, g3) + FieldParam(f, g4) + FieldParam(f, g5)
  {
    FieldParamsOf4(f, g1, g2, g3, g4);
    FieldParamsSnoc(f, [g1, g2, g3, g4], g5);
    assert [g1, g2, g3, g4] + [g5] == [g1, g2, g3, g4, g5];
  }

  lemma FieldParamsOf6(f: FilterRecord, g1: Field, g2: Field, g3: Field, g4: Field, g5: Field, g6: Field)
    ensures FieldParams(f, [g1, g2, g3, g4, g5, g6]) == FieldParam(f, g1) + FieldParam(f, g2) + FieldParam(f, g3) + FieldParam(f, g4) + FieldParam(f, g5) + FieldParam(f, g6)
  {
    FieldParamsOf5(f, g1, g2, g3, g4, g5);
    FieldParamsSnoc(f, [g1, g2, g3, g4, g5], g6);
    assert [g1, g2, g3, g4, g5] + [g6] == [g1, g2, g3, g4, g5, g6];
  }

  /** `FieldParams` over the whole filter order, one filter at a time. */
  lemma FilterOrderUnrolled(f: FilterRecord)
    ensures FieldParams(f, FilterOrder) == FieldParam(f, Company) + FieldParam(f, SourceRegion)
      + FieldParam(f, Location) + FieldParam(f, JobTitle) + FieldParam(f, DateFrom) + FieldParam(f, DateTo)
  {
    FieldParamsOf6(f, Company, SourceRegion, Location, JobTitle, DateFrom, DateTo);
  }

  /** The six filter steps followed by the two sort appends give `Query`. */
  lemma QueryFromParts(f: FilterRecord, sortBy: SortField, sortOrder: SortOrder,
                       filtered: seq<Param>, all: seq<Param>)
    requires filtered == FieldParam(f, Company) + FieldParam(f, SourceRegion)
      + FieldParam(f, Location) + FieldParam(f, JobTitle) + FieldParam(f, DateFrom) + FieldParam(f, DateTo)
    requires all == filtered + [(SortByKey, SortByName(sortBy))] + [(SortOrderKey, SortOrderName(sortOrder))]
    ensures all == Query(f, sortBy, sortOrder)
  {
    FilterOrderUnrolled(f);
  }

  /** `URLSearchParams.get`: the value of the first pair with key `k`. */
  function Lookup(ps: seq<Param>, k: ParamKey): (r: Option<string>)
    ensures r.Some? ==> (k, r.value) in ps
    ensures r.None? ==> forall i :: 0 <= i < |ps| ==> ps[i].0 != k
  {
    if ps == [] then None else if ps[0].0 == k then Some(ps[0].1) else Lookup(ps[1..], k)
  }

  lemma {:induction false} LookupAppend(a: seq<Param>, b: seq<Param>, k: ParamKey)
    ensures Lookup(a + b, k) == if Lookup(a, k).Some? then Lookup(a, k) else Lookup(b, k)
  {
    if a == [] {
      assert a + b == b;
    } else {
      assert (a + b)[0] == a[0];
      assert (a + b)[1..] == a[1..] + b;
      LookupAppend(a[1..], b, k);
    }
  }

  /** Position of every key in the fixed order of the query. */
  function KeyRank(k: ParamKey): nat {
    match k
    case FilterKey(Company) => 0
    case FilterKey(SourceRegion) => 1
    case FilterKey(Location) => 2
    case FilterKey(JobTitle) => 3
    case FilterKey(DateFrom) => 4
    case FilterKey(DateTo) => 5
    case SortByKey => 6
    case SortOrderKey => 7
  }

  predicate KeysIncrease(q: seq<Param>) {
    forall i, j :: 0 <= i < j < |q| ==> KeyRank(q[i].0) < KeyRank(q[j].0)
  }

  predicate RanksIncrease(fields: seq<Field>) {
    forall i, j :: 0 <= i < j < |fields| ==> KeyRank(FilterKey(fields[i])) < KeyRank(FilterKey(fields[j]))
  }

  lemma {:induction false} FieldParamsInOrder(f: FilterRecord, fields: seq<Field>)
    requires RanksIncrease(fields)
    ensures KeysIncrease(FieldParams(f, fields))
    ensures forall i :: 0 <= i < |FieldParams(f, fields)| ==> FieldParams(f, fields)[i].0.FilterKey?
    ensures fields != [] ==> forall i :: 0 <= i < |FieldParams(f, fields)| ==>
      KeyRank(FieldParams(f, fields)[i].0) <= KeyRank(FilterKey(fields[|fields| - 1]))
  {
    if fields != [] {
      var init, last := fields[..|fields| - 1], fields[|fields| - 1];
      var top := KeyRank(FilterKey(last));
      assert RanksIncrease(init);
      FieldParamsInOrder(f, init);
      var a, b := FieldParams(f, init), FieldParam(f, last);
      assert FieldParams(f, fields) == a + b;
      forall i | 0 <= i < |a| ensures KeyRank(a[i].0) < top {
        assert init != [];
        assert KeyRank(a[i].0) <= KeyRank(FilterKey(init[|init| - 1]));
        assert init[|init| - 1] == fields[|fields| - 2];
        assert KeyRank(FilterKey(init[|init| - 1])) < top;
      }
      assert forall i :: 0 <= i < |b| ==> b[i].0 == FilterKey(last);
      var p := a + b;
      forall i, j | 0 <= i < j < |p| ensures KeyRank(p[i].0) < KeyRank(p[j].0) {
        if j < |a| {
          assert p[i] == a[i] && p[j] == a[j];
        } else {
          assert p[i] == a[i] && p[j] == b[j - |a|];
        }
      }
    }
  }

  /** The query lists its keys in the fixed order company, source_region,
      location, job_title, dateFrom, dateTo, sortBy, sortOrder (each at most
      once), and always ends with the two sort keys. */
  lemma QueryOrder(f: FilterRecord, sortBy: SortField, sortOrder: SortOrder)
    ensures KeysIncrease(Query(f, sortBy, sortOrder))
    ensures |Query(f, sortBy, sortOrder)| >= 2
    ensures Query(f, sortBy, sortOrder)[|Query(f, sortBy, sortOrder)| - 2] == (SortByKey, SortByName(sortBy))
    ensures Query(f, sortBy, sortOrder)[|Query(f, sortBy, sortOrder)| - 1] == (SortOrderKey, SortOrderName(sortOrder))
  {
    var a := FieldParams(f, FilterOrder);
    FieldParamsInOrder(f, FilterOrder);
    SortsAfterFilters(a, SortByName(sortBy), SortOrderName(sortOrder));
  }

  /** Filter pairs in increasing order, then the two sort pairs, are in
      increasing order. */
  lemma SortsAfterFilters(a: seq<Param>, sortByText: string, sortOrderText: string)
    requires KeysIncrease(a)
    requires forall i :: 0 <= i < |a| ==> a[i].0.FilterKey?
    ensures KeysIncrease(a + [(SortByKey, sortByText), (SortOrderKey, sortOrderText)])
  {
    var q := a + [(SortByKey, sortByText), (SortOrderKey, sortOrderText)];
    forall i, j | 0 <= i < j < |q| ensures KeyRank(q[i].0) < KeyRank(q[j].0) {
      if j < |a| {
        assert q[i] == a[i] && q[j] == a[j];
      } else if i < |a| {
        assert q[i] == a[i];
      }
    }
  }

  lemma LookupFieldParam(f: FilterRecord, g: Field, field: Field)
    ensures Lookup(FieldParam(f, g), FilterKey(field))
         == if g == field && Truthy(Get(f, g)) then Some(ParamValue(Get(f, g))) else None
  {
  }

  lemma {:induction false} LookupFieldParams(f: FilterRecord, fields: seq<Field>, field: Field)
    ensures Lookup(FieldParams(f, fields), FilterKey(field))
         == if field in fields && Truthy(Get(f, field)) then Some(ParamValue(Get(f, field))) else None
  {
    if fields != [] {
      var init, last := fields[..|fields| - 1], fields[|fields| - 1];
      assert FieldParams(f, fields) == FieldParams(f, init) + FieldParam(f, last);
      LookupAppend(FieldParams(f, init), FieldParam(f, last), FilterKey(field));
      LookupFieldParams(f, init, field);
      LookupFieldParam(f, last, field);
      assert fields == init + [last];
      assert field in fields <==> field in init || field == last;
    }
  }

  /** A filter key is in the query exactly when the filter is truthy (a non-empty
      string, or a date), and then carries the filter's text or date part. */
  lemma QueryLookup(f: FilterRecord, sortBy: SortField, sortOrder: SortOrder, field: Field)
    ensures Lookup(Query(f, sortBy, sortOrder), FilterKey(field))
         == if Truthy(Get(f, field)) then Some(ParamValue(Get(f, field))) else None
  {
    var filters := FieldParams(f, FilterOrder);
    var sorts := [(SortByKey, SortByName(sortBy)), (SortOrderKey, SortOrderName(sortOrder))];
    assert Query(f, sortBy, sortOrder) == filters + sorts;
    assert field in FilterOrder by {
      assert FilterOrder == [Company, SourceRegion, Location, JobTitle, DateFrom, DateTo];
    }
    LookupFieldParams(f, FilterOrder, field);
    LookupAppend(filters, sorts, FilterKey(field));
    assert Lookup(sorts, FilterKey(field)) == None by {
      assert sorts[1..][1..] == [];
    }
  }

  /** The two sort keys are always in the query, with the chosen sort. */
  lemma QuerySortLookup(f: FilterRecord, sortBy: SortField, sortOrder: SortOrder)
    ensures Lookup(Query(f, sortBy, sortOrder), SortByKey) == Some(SortByName(sortBy))
    ensures Lookup(Query(f, sortBy, sortOrder), SortOrderKey) == Some(SortOrderName(sortOrder))
  {
    FieldParamsInOrder(f, FilterOrder);
    SortLookupAfterFilters(FieldParams(f, FilterOrder), SortByName(sortBy), SortOrderName(sortOrder));
  }

  /** After filter pairs only, the two sort pairs are found under their keys. */
  lemma SortLookupAfterFilters(a: seq<Param>, sortByText: string, sortOrderText: string)
    requires forall i :: 0 <= i < |a| ==> a[i].0.FilterKey?
    ensures Lookup(a + [(SortByKey, sortByText), (SortOrderKey, sortOrderText)], SortByKey)
         == Some(sortByText)
    ensures Lookup(a + [(SortByKey, sortByText), (SortOrderKey, sortOrderText)], SortOrderKey)
         == Some(sortOrderText)
  {
    var sorts := [(SortByKey, sortByText), (SortOrderKey, sortOrderText)];
    LookupAppend(a, sorts, SortByKey);
    LookupAppend(a, sorts, SortOrderKey);
    assert Lookup(a, SortByKey) == None;
    assert Lookup(a, SortOrderKey) == None;
    assert Lookup(sorts, SortOrderKey) == Some(sortOrderText) by {
      assert sorts[1..][0] == (SortOrderKey, sortOrderText);
    }
  }

  /** A present date bound is sent as its day's `YYYY-MM-DD` text. */
  lemma DateParamIsDay(f: FilterRecord, sortBy: SortField, sortOrder: SortOrder, field: Field)
    requires field.IsDate() && Get(f, field).date.Some?
    ensures Lookup(Query(f, sortBy, sortOrder), FilterKey(field))
         == Some(DateText(DayOf(Get(f, field).date.value)))
  {
    QueryLookup(f, sortBy, sortOrder, field);
    DatePartIsDateText(Get(f, field).date.value);
  }

  /** What the server can learn from a query: the text filters, the days of
      the date bounds and the sort. */
  datatype QueryView = QueryView(
    company: string, sourceRegion: string, location: string, jobTitle: string,
    dateFrom: Option<CalendarDate>, dateTo: Option<CalendarDate>,
    sortBy: SortField, sortOrder: SortOrder)

  function DayOfBound(d: Option<Instant>): Option<CalendarDate> {
    if d.Some? then Some(DayOf(d.value)) else None
  }

  function ViewOf(f: FilterRecord, sortBy: SortField, sortOrder: SortOrder): QueryView {
    QueryView(f.company, f.sourceRegion, f.location, f.jobTitle,
              DayOfBound(f.dateFrom), DayOfBound(f.dateTo), sortBy, sortOrder)
  }

  function TextParam(q: seq<Param>, field: Field): string {
    var v := Lookup(q, FilterKey(field));
    if v.Some? then v.value else ""
  }

  /** A missing date key is no bound; a present one must read as a day. */
  function DateParam(q: seq<Param>, field: Field): Option<Option<CalendarDate>> {
    var v := Lookup(q, FilterKey(field));
    if v.None? then Some(None)
    else
      var c := ParseDate(v.value);
      if c.None? then None else Some(Some(c.value))
  }

  /** Reads a query back as a server could: an absent key is no constraint. */
  function Decode(q: seq<Param>): Option<QueryView> {
    var sb := Lookup(q, SortByKey);
    var so := Lookup(q, SortOrderKey);
    var from := DateParam(q, DateFrom);
    var to := DateParam(q, DateTo);
    if sb.None? || so.None? || from.None? || to.None? then None
    else
      var s := ParseSortBy(sb.value);
      var o := ParseSortOrder(so.value);
      if s.None? || o.None? then None
      else Some(QueryView(TextParam(q, Company), TextParam(q, SourceRegion),
                          TextParam(q, Location), TextParam(q, JobTitle),
                          from.value, to.value, s.value, o.value))
  }

  lemma DateParamOfQuery(f: FilterRecord, sortBy: SortField, sortOrder: SortOrder, field: Field)
    requires field.IsDate()
    ensures DateParam(Query(f, sortBy, sortOrder), field) == Some(DayOfBound(Get(f, field).date))
  {
    QueryLookup(f, sortBy, sortOrder, field);
    var d := Get(f, field).date;
    if d.Some? {
      DateParamIsDay(f, sortBy, sortOrder, field);
      DateTextRoundTrip(DayOf(d.value));
    }
  }

  /** Decoding the built query recovers every filter (dates as their days) and
      the sort: leaving out empty filters loses nothing. */
  lemma QueryRoundTrip(f: FilterRecord, sortBy: SortField, sortOrder: SortOrder)
    ensures Decode(Query(f, sortBy, sortOrder)) == Some(ViewOf(f, sortBy, sortOrder))
  {
    QueryLookup(f, sortBy, sortOrder, Company);
    QueryLookup(f, sortBy, sortOrder, SourceRegion);
    QueryLookup(f, sortBy, sortOrder, Location);
    QueryLookup(f, sortBy, sortOrder, JobTitle);
    DateParamOfQuery(f, sortBy, sortOrder, DateFrom);
    DateParamOfQuery(f, sortBy, sortOrder, DateTo);
    QuerySortLookup(f, sortBy, sortOrder);
    assert ParseSortBy(SortByName(sortBy)) == Some(sortBy);
    assert ParseSortOrder(SortOrderName(sortOrder)) == Some(sortOrder);
  }

  lemma {:induction false} FieldParamsAgree(f1: FilterRecord, f2: FilterRecord, fields: seq<Field>)
    requires forall g :: FieldParam(f1, g) == FieldParam(f2, g)
    ensures FieldParams(f1, fields) == FieldParams(f2, fields)
  {
    if fields != [] {
      FieldParamsAgree(f1, f2, fields[..|fields| - 1]);
    }
  }

  /** Filter states that agree on what the server can learn agree on every
      filter's contribution to the query. */
  lemma SameViewSameFieldParam(f1: FilterRecord, s1: SortField, o1: SortOrder,
                               f2: FilterRecord, s2: SortField, o2: SortOrder, g: Field)
    requires ViewOf(f1, s1, o1) == ViewOf(f2, s2, o2)
    ensures FieldParam(f1, g) == FieldParam(f2, g)
  {
    if g.IsDate() && Get(f1, g).date.Some? {
      assert Get(f2, g).date.Some?;
      assert DayOf(Get(f1, g).date.value) == DayOf(Get(f2, g).date.value);
      DatePartIsDateText(Get(f1, g).date.value);
      DatePartIsDateText(Get(f2, g).date.value);
    }
  }

  /** Two filter states give the same query exactly when they agree on the
      text filters, the days of the date bounds and the sort. */
  lemma SameQueryIffSameView(f1: FilterRecord, s1: SortField, o1: SortOrder,
                             f2: FilterRecord, s2: SortField, o2: SortOrder)
    ensures Query(f1, s1, o1) == Query(f2, s2, o2) <==> ViewOf(f1, s1, o1) == ViewOf(f2, s2, o2)
  {
    QueryRoundTrip(f1, s1, o1);
    QueryRoundTrip(f2, s2, o2);
    if ViewOf(f1, s1, o1) == ViewOf(f2, s2, o2) {
      forall g ensures FieldParam(f1, g) == FieldParam(f2, g) {
        SameViewSameFieldParam(f1, s1, o1, f2, s2, o2, g);
      }
      FieldParamsAgree(f1, f2, FilterOrder);
    }
  }

  /** After `clearFilters` only the two sort keys are sent. */
  lemma ClearedQueryHasOnlySort(f: FilterRecord, sortBy: SortField, sortOrder: SortOrder)
    ensures Query(ClearFilters(f), sortBy, sortOrder)
         == [(SortByKey, SortByName(sortBy)), (SortOrderKey, SortOrderName(sortOrder))]
  {
    FilterOrderUnrolled(Initial);
  }

  /** A title filter with the default sort and no dates sends exactly
      `job_title=engineer&sortBy=collected_at&sortOrder=desc`. */
  lemma TitleOnlyExample()
    ensures Render(Query(Initial.(jobTitle := "engineer"), DefaultSortBy, DefaultSortOrder))
         == [("job_title", "engineer"), ("sortBy", "collected_at"), ("sortOrder", "desc")]
  {
    var f := Initial.(jobTitle := "engineer");
    FilterOrderUnrolled(f);
  }
}
