/** The dashboard's filter record and the value-replacing updates the user's
    edits make to it (`handleFilterChange`, `handleDateSelect`, `clearFilters`). */
module Filters {
  import opened Wrappers
  import opened IsoDates

  /** The six fields of the filter record. */
  datatype Field = Company | SourceRegion | Location | JobTitle | DateFrom | DateTo
  {
    predicate IsDate() {
      DateFrom? || DateTo?
    }
  }

  /** What a field holds: free text for the four text inputs, a date or `null`
      for the two calendar fields. */
  datatype Value = Text(text: string) | When(date: Option<Instant>)

  /** The kind of value each field is given by its input. */
  predicate Fits(field: Field, v: Value) {
    if field.IsDate() then v.When? else v.Text?
  }

  /** JavaScript truthiness of a field value: a non-empty string, or a date. */
  predicate Truthy(v: Value)
    ensures Truthy(v) <==> v != Text("") && v != When(None)
  {
    match v
    case Text(s) => s != ""
    case When(d) => d.Some?
  }

  datatype FilterRecord = FilterRecord(
    company: string, sourceRegion: string, location: string, jobTitle: string,
    dateFrom: Option<Instant>, dateTo: Option<Instant>)

  /** `filters[field]`. */
  function Get(f: FilterRecord, field: Field): (v: Value)
    ensures Fits(field, v)
  {
    match field
    case Company => Text(f.company)
    case SourceRegion => Text(f.sourceRegion)
    case Location => Text(f.location)
    case JobTitle => Text(f.jobTitle)
    case DateFrom => When(f.dateFrom)
    case DateTo => When(f.dateTo)
  }

  /** The record the dashboard starts with, and the one `clearFilters` writes:
      four empty strings and two nulls. */
  const Initial := FilterRecord("", "", "", "", None, None)

  /** The initial record is the only one with no active filter. */
  lemma NoFilterIsInitial(f: FilterRecord)
    ensures (forall g :: !Truthy(Get(f, g))) <==> f == Initial
  {
    if forall g :: !Truthy(Get(f, g)) {
      assert !Truthy(Get(f, Company)) && !Truthy(Get(f, SourceRegion));
      assert !Truthy(Get(f, Location)) && !Truthy(Get(f, JobTitle));
      assert !Truthy(Get(f, DateFrom)) && !Truthy(Get(f, DateTo));
    }
  }

  /** `handleFilterChange(field, value)`: `{...prev, [field]: value}`. */
  function HandleFilterChange(prev: FilterRecord, field: Field, v: Value): (r: FilterRecord)
    requires Fits(field, v)
    ensures Get(r, field) == v
    ensures forall g :: g != field ==> Get(r, g) == Get(prev, g)
  {
    match field
    case Company => prev.(company := v.text)
    case SourceRegion => prev.(sourceRegion := v.text)
    case Location => prev.(location := v.text)
    case JobTitle => prev.(jobTitle := v.text)
    case DateFrom => prev.(dateFrom := v.date)
    case DateTo => prev.(dateTo := v.date)
  }

  /** The filter part of `handleDateSelect(date, field)`: the calendar's date is
      stored in the chosen bound. */
  function HandleDateSelect(prev: FilterRecord, date: Instant, field: Field): (r: FilterRecord)
    requires field.IsDate()
    ensures Get(r, field) == When(Some(date))
    ensures forall g :: g != field ==> Get(r, g) == Get(prev, g)
  {
    HandleFilterChange(prev, field, When(Some(date)))
  }

  /** `clearFilters`: one replacement of the whole record by the initial one. */
  function ClearFilters(prev: FilterRecord): (r: FilterRecord)
    ensures forall g :: !Truthy(Get(r, g))
    ensures forall g :: Get(r, g) == Get(Initial, g)
  {
    Initial
  }

  /** Writing a field's current value back changes nothing. */
  lemma ChangeToCurrentIsIdentity(f: FilterRecord, field: Field)
    ensures HandleFilterChange(f, field, Get(f, field)) == f
  {
  }

  /** A second edit of the same field overrides the first. */
  lemma LastChangeWins(f: FilterRecord, field: Field, v: Value, w: Value)
    requires Fits(field, v) && Fits(field, w)
    ensures HandleFilterChange(HandleFilterChange(f, field, v), field, w)
         == HandleFilterChange(f, field, w)
  {
  }

  /** Edits of different fields do not interfere: their order does not matter. */
  lemma ChangesCommute(f: FilterRecord, g1: Field, v1: Value, g2: Field, v2: Value)
    requires g1 != g2 && Fits(g1, v1) && Fits(g2, v2)
    ensures HandleFilterChange(HandleFilterChange(f, g1, v1), g2, v2)
         == HandleFilterChange(HandleFilterChange(f, g2, v2), g1, v1)
  {
  }

  /** Clearing is the initial record, so clearing twice is clearing once, and
      clearing forgets every earlier edit. */
  lemma ClearIsIdempotent(f: FilterRecord, field: Field, v: Value)
    requires Fits(field, v)
    ensures ClearFilters(ClearFilters(f)) == ClearFilters(f) == Initial
    ensures ClearFilters(HandleFilterChange(f, field, v)) == ClearFilters(f)
  {
  }
}
