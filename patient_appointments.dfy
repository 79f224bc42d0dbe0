/** The patient's appointment list (src/app/patient/appointments/page.tsx):
    page and status state changed by the status buttons, Clear Filters and the
    pagination buttons, and the query the state produces. */
module PatientAppointments {
  import opened Js
  import opened Types
  import opened Api
  import opened Listing

  /** The react-query key under which this list is cached. */
  const QueryKeyName: string := "patient-appointments"

  /** The page's state: `page`, `status`. */
  datatype ViewState = ViewState(page: int, status: string)

  const Initial: ViewState := ViewState(1, "")

  datatype Event =
    | StatusButtonPressed(filter: StatusFilter)
    | FiltersCleared
    | PreviousClicked(totalPages: int)
    | NextClicked(totalPages: int)

  /** `{status && ...}`: the Clear Filters button is rendered. */
  predicate ClearShown(f: ViewState)
  {
    f.status != ""
  }

  predicate Enabled(f: ViewState, e: Event)
  {
    match e
    case StatusButtonPressed(_) => true
    case FiltersCleared => ClearShown(f)
    case PreviousClicked(totalPages) => ControlsShown(totalPages) && PreviousEnabled(f.page)
    case NextClicked(totalPages) => ControlsShown(totalPages) && NextEnabled(f.page, totalPages)
  }

  function Step(f: ViewState, e: Event): (r: ViewState)
    requires Enabled(f, e)
    ensures f.page >= 1 ==> r.page >= 1
  {
    match e
    case StatusButtonPressed(filter) => f.(status := FilterValue(filter))
    case FiltersCleared => ViewState(1, "")
    case PreviousClicked(_) => f.(page := f.page - 1)
    case NextClicked(_) => f.(page := f.page + 1)
  }

  predicate Admissible(f: ViewState, events: seq<Event>)
    decreases |events|
  {
    events == [] || (Enabled(f, events[0]) && Admissible(Step(f, events[0]), events[1..]))
  }

  function Run(f: ViewState, events: seq<Event>): ViewState
    requires Admissible(f, events)
    decreases |events|
  {
    if events == [] then f else Run(Step(f, events[0]), events[1..])
  }

  /** The page stays at least 1 along every run of enabled handlers. */
  lemma {:induction false} RunKeepsPagePositive(f: ViewState, events: seq<Event>)
    requires f.page >= 1 && Admissible(f, events)
    ensures Run(f, events).page >= 1
    decreases |events|
  {
    if events != [] {
      RunKeepsPagePositive(Step(f, events[0]), events[1..]);
    }
  }

  /** The status is always one of the four values the buttons set. */
  lemma {:induction false} RunKeepsStatusKnown(f: ViewState, events: seq<Event>)
    requires f.status == "" || ParseStatus(f.status).Some?
    requires Admissible(f, events)
    ensures var s := Run(f, events).status; s == "" || ParseStatus(s).Some?
    decreases |events|
  {
    if events != [] {
      RunKeepsStatusKnown(Step(f, events[0]), events[1..]);
    }
  }

  /** Next is not disabled past the last page: on page 3 of 3, pressing Pending
      (a filter with two pages) keeps page 3, and Next leads to page 4. */
  lemma PageCanPassTotalPages()
    ensures Admissible(Initial, [NextClicked(3), NextClicked(3), StatusButtonPressed(OnlyStatus(PENDING)), NextClicked(2)])
    ensures Run(Initial, [NextClicked(3), NextClicked(3), StatusButtonPressed(OnlyStatus(PENDING)), NextClicked(2)]).page == 4
  {
    var events := [NextClicked(3), NextClicked(3), StatusButtonPressed(OnlyStatus(PENDING)), NextClicked(2)];
    assert events[1..] == [NextClicked(3), StatusButtonPressed(OnlyStatus(PENDING)), NextClicked(2)];
    assert events[1..][1..] == [StatusButtonPressed(OnlyStatus(PENDING)), NextClicked(2)];
    assert events[1..][1..][1..] == [NextClicked(2)];
  }

  /** The query parameters: `page` always, `status` only when non-empty. */
  function QueryParams(f: ViewState): (p: PatientAppointmentsParams)
    ensures p.page == Some(f.page)
    ensures p.status == None <==> f.status == ""
    ensures p.status.Some? ==> p.status.value == f.status
  {
    PatientAppointmentsParams(OrUndefined(f.status), Some(f.page))
  }

  function StateOf(p: PatientAppointmentsParams): ViewState
    requires p.page.Some?
  {
    ViewState(p.page.value, OrEmpty(p.status))
  }

  /** The query determines the filter state. */
  lemma QueryParamsRoundTrip(f: ViewState)
    ensures StateOf(QueryParams(f)) == f
  {
    OrUndefinedRoundTrip(f.status);
  }

  function ListRequest(f: ViewState): (r: Request)
    ensures r.verb == GET && r.path == "/appointments/patient"
    ensures r.payload == PatientAppointmentsQuery(QueryParams(f))
  {
    PatientAppointmentsCall(QueryParams(f))
  }

  /** A status button is highlighted when it holds the current filter value. */
  predicate Highlighted(f: ViewState, button: StatusFilter)
  {
    f.status == FilterValue(button)
  }

  /** After pressing a button, exactly that button is highlighted. */
  lemma PressedButtonHighlighted(f: ViewState, button: StatusFilter, other: StatusFilter)
    ensures Highlighted(Step(f, StatusButtonPressed(button)), other) <==> other == button
  {
  }

  /** The empty-list hint depends only on whether a status filter is set. */
  function EmptyHint(f: ViewState): (hint: string)
    ensures hint == "Try adjusting your filters" <==> ClearShown(f)
    ensures !ClearShown(f) ==> hint == "You have no appointments yet"
  {
    if f.status != "" then "Try adjusting your filters" else "You have no appointments yet"
  }

  class View {
    var page: int
    var status: string

    ghost predicate Valid()
      reads this
    {
      page >= 1
    }

    function State(): ViewState
      reads this
    {
      ViewState(page, status)
    }

    constructor ()
      ensures Valid() && State() == Initial
    {
      page, status := 1, "";
    }

    /** One of the All / Pending / Completed / Cancelled buttons: sets `status`, keeps `page`. */
    method PressStatusButton(filter: StatusFilter)
      requires Valid()
      modifies this
      ensures Valid()
      ensures status == FilterValue(filter) && page == old(page)
      ensures State() == Step(old(State()), StatusButtonPressed(filter))
    {
      status := FilterValue(filter);
    }

    method ClearFilters()
      requires Valid() && ClearShown(State())
      modifies this
      ensures Valid()
      ensures status == "" && page == 1
      ensures State() == Step(old(State()), FiltersCleared)
    {
      status := "";
      page := 1;
    }

    method Previous(totalPages: int)
      requires Valid() && ControlsShown(totalPages) && PreviousEnabled(page)
      modifies this
      ensures Valid()
      ensures page == old(page) - 1 && status == old(status)
      ensures State() == Step(old(State()), PreviousClicked(totalPages))
    {
      page := page - 1;
    }

    method Next(totalPages: int)
      requires Valid() && ControlsShown(totalPages) && NextEnabled(page, totalPages)
      modifies this
      ensures Valid()
      ensures page == old(page) + 1 && status == old(status)
      ensures State() == Step(old(State()), NextClicked(totalPages))
    {
      page := page + 1;
    }
  }
}
