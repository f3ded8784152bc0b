/** The state of the `Dashboard` component and the steps that change it. Each
    call to the back end is one step that is handed the server's answer (the
    payload, or the transport's error message). */
module Controller {
  import opened Wrappers
  import opened IsoDates
  import opened Filters
  import opened QueryParams

  /** A row of `/jobs/search`'s `data` array. */
  datatype Job = Job(jobTitle: string, company: string, location: string, sourceRegion: string,
                     salaryRaw: Option<string>, collectedAt: string, jobLink: string)

  /** The committed connection settings, as `GET /settings` returns them. */
  datatype Settings = Settings(baserowUrl: string, tableId: string, tokenConfigured: bool)

  /** The settings form (`newSettings`), which is also the body of `POST /settings`. */
  datatype SettingsForm = SettingsForm(baserowUrl: string, baserowToken: string, tableId: string)

  /** What an `axios` call resolves to, or the message of the error it throws. */
  datatype Response<T> = Ok(data: T) | Failed(message: string)

  const InitialSettings := Settings("", "", false)
  const EmptyForm := SettingsForm("", "", "")
  const JobsErrorPrefix := "Erro ao carregar vagas: "

  /** The banner text of a failed job load. */
  function JobsError(message: string): (e: string)
    ensures |e| == |JobsErrorPrefix| + |message|
    ensures e[..|JobsErrorPrefix|] == JobsErrorPrefix && e[|JobsErrorPrefix|..] == message
  {
    JobsErrorPrefix + message
  }

  class Dashboard {
    var jobs: seq<Job>
    var loading: bool
    var error: Option<string>
    var filters: FilterRecord
    var sortBy: SortField
    var sortOrder: SortOrder
    var settings: Settings
    var newSettings: SettingsForm

    /** The initial `useState` values. */
    constructor ()
      ensures jobs == [] && !loading && error == None
      ensures filters == Initial && sortBy == DefaultSortBy && sortOrder == DefaultSortOrder
      ensures settings == InitialSettings && !settings.tokenConfigured
      ensures newSettings == EmptyForm
    {
      jobs, loading, error := [], false, None;
      filters, sortBy, sortOrder := Initial, DefaultSortBy, DefaultSortOrder;
      settings, newSettings := InitialSettings, EmptyForm;
    }

    /** `loadSettings`: on success the settings are replaced and the form is
        refilled without the token; on failure nothing changes. */
    method LoadSettings(response: Response<Settings>)
      modifies this
      ensures response.Ok? ==> settings == response.data
      ensures response.Ok? ==> newSettings == SettingsForm(response.data.baserowUrl, "", response.data.tableId)
      ensures response.Failed? ==> settings == old(settings) && newSettings == old(newSettings)
      ensures jobs == old(jobs) && loading == old(loading) && error == old(error)
      ensures filters == old(filters) && sortBy == old(sortBy) && sortOrder == old(sortOrder)
    {
      match response {
        case Ok(data) =>
          settings := data;
          newSettings := SettingsForm(data.baserowUrl, "", data.tableId);
        case Failed(_) =>
      }
    }

    /** `saveSettings`: posts the form; on success the returned `config`
        replaces the settings, on failure they stay; `loading` ends false
        either way. */
    method SaveSettings(response: Response<Settings>) returns (sent: SettingsForm)
      modifies this
      ensures sent == old(newSettings)
      ensures settings == if response.Ok? then response.data else old(settings)
      ensures !loading
      ensures jobs == old(jobs) && error == old(error) && newSettings == old(newSettings)
      ensures filters == old(filters) && sortBy == old(sortBy) && sortOrder == old(sortOrder)
    {
      loading := true;
      sent := newSettings;
      match response {
        case Ok(config) => settings := config;
        case Failed(_) =>
      }
      loading := false;
    }

    /** `loadJobs`: sends the query built from the current filters and sort;
        on success the jobs are replaced wholesale, on failure they stay and
        the error banner is set; `loading` ends false either way. */
    method LoadJobs(response: Response<seq<Job>>) returns (query: seq<Param>)
      modifies this
      ensures query == Query(old(filters), old(sortBy), old(sortOrder))
      ensures jobs == if response.Ok? then response.data else old(jobs)
      ensures error == if response.Ok? then None else Some(JobsError(response.message))
      ensures !loading
      ensures settings == old(settings) && newSettings == old(newSettings)
      ensures filters == old(filters) && sortBy == old(sortBy) && sortOrder == old(sortOrder)
    {
      loading := true;
      error := None;
      query := BuildQuery(filters, sortBy, sortOrder);
      match response {
        case Ok(data) => jobs := data;
        case Failed(message) => error := Some(JobsErrorPrefix + message);
      }
      loading := false;
    }

    /** The effect that runs after the filters, the sort or the settings
        change: jobs are requested only while the token is configured. */
    method RefreshJobs(response: Response<seq<Job>>) returns (request: Option<seq<Param>>)
      modifies this
      ensures request.Some? <==> old(settings.tokenConfigured)
      ensures request.Some? ==> request.value == Query(old(filters), old(sortBy), old(sortOrder))
      ensures request.Some? ==> jobs == (if response.Ok? then response.data else old(jobs))
      ensures request.Some? ==> error == (if response.Ok? then None else Some(JobsError(response.message)))
      ensures request.Some? ==> !loading
      ensures request.None? ==> jobs == old(jobs) && error == old(error) && loading == old(loading)
      ensures settings == old(settings) && newSettings == old(newSettings)
      ensures filters == old(filters) && sortBy == old(sortBy) && sortOrder == old(sortOrder)
    {
      if settings.tokenConfigured {
        var query := LoadJobs(response);
        request := Some(query);
      } else {
        request := None;
      }
    }

    /** `handleFilterChange(field, value)`. */
    method ChangeFilter(field: Field, v: Value)
      requires Fits(field, v)
      modifies this`filters
      ensures filters == HandleFilterChange(old(filters), field, v)
    {
      filters := HandleFilterChange(filters, field, v);
    }

    /** `handleDateSelect(date, field)`, without closing the calendar popup. */
    method SelectDate(date: Instant, field: Field)
      requires field.IsDate()
      modifies this`filters
      ensures filters == HandleDateSelect(old(filters), date, field)
    {
      filters := HandleDateSelect(filters, date, field);
    }

    /** `clearFilters`. */
    method ClearAllFilters()
      modifies this`filters
      ensures filters == ClearFilters(old(filters))
    {
      filters := ClearFilters(filters);
    }

    /** The `setSortBy` of the field select box. */
    method SetSortBy(s: SortField)
      modifies this`sortBy
      ensures sortBy == s
    {
      sortBy := s;
    }

    /** The `setSortOrder` of the direction select box. */
    method SetSortOrder(o: SortOrder)
      modifies this`sortOrder
      ensures sortOrder == o
    {
      sortOrder := o;
    }
  }

  /** The edits a user can make to the filters and the sort. */
  datatype UserAction =
    | EditFilter(field: Field, value: Value)
    | PickDate(date: Instant, bound: Field)
    | ClearAll
    | ChooseSortBy(choice: SortField)
    | ChooseSortOrder(direction: SortOrder)

  predicate WellFormed(a: UserAction) {
    match a
    case EditFilter(field, value) => Fits(field, value)
    case PickDate(_, bound) => bound.IsDate()
    case _ => true
  }

  /** A dashboard whose settings failed to load never asks for jobs, whatever
      the user then does to the filters and the sort, and never shows any. */
  method NoJobsWithoutSettings(settingsFailure: string, actions: seq<UserAction>,
                               answer: Response<seq<Job>>)
    returns (requests: nat, shown: seq<Job>)
    requires forall i :: 0 <= i < |actions| ==> WellFormed(actions[i])
    ensures requests == 0 && shown == []
  {
    var d := new Dashboard();
    d.LoadSettings(Failed(settingsFailure));
    requests := 0;
    var i := 0;
    while i < |actions|
      invariant 0 <= i <= |actions|
      invariant !d.settings.tokenConfigured
      invariant requests == 0 && d.jobs == []
    {
      match actions[i] {
        case EditFilter(field, value) => d.ChangeFilter(field, value);
        case PickDate(date, bound) => d.SelectDate(date, bound);
        case ClearAll => d.ClearAllFilters();
        case ChooseSortBy(choice) => d.SetSortBy(choice);
        case ChooseSortOrder(direction) => d.SetSortOrder(direction);
      }
      var request := d.RefreshJobs(answer);
      if request.Some? {
        requests := requests + 1;
      }
      i := i + 1;
    }
    shown := d.jobs;
  }
}
