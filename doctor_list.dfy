/** The patient's doctor search (src/components/patient/DoctorList.tsx): page,
    search text, specialization, the doctor chosen for booking and whether the
    booking modal is open, changed by the view's handlers. */
module DoctorList {
  import opened Js
  import opened Types
  import opened Api
  import opened Listing

  /** Doctors shown per page. */
  const PageSize: int := 9

  /** The view's state: `page`, the two filters and the booking dialog's doctor and open flag. */
  datatype ViewState = ViewState(
    page: int,
    search: string,
    specialization: string,
    selectedDoctor: Option<Doctor>,
    isBookingModalOpen: bool)

  const Initial: ViewState := ViewState(1, "", "", None, false)

  datatype Event =
    | SearchTyped(value: string)
    | SearchSubmitted
    | SpecializationSelected(value: string)
    | FiltersCleared
    | BookClicked(doctor: Doctor)
    | ModalClosed
    | PreviousClicked(totalPages: int)
    | NextClicked(totalPages: int)

  /** `(search || specialization)`: the Clear button is rendered. */
  predicate ClearShown(f: ViewState)
  {
    f.search != "" || f.specialization != ""
  }

  predicate Enabled(f: ViewState, e: Event)
  {
    match e
    case FiltersCleared => ClearShown(f)
    case PreviousClicked(totalPages) => ControlsShown(totalPages) && PreviousEnabled(f.page)
    case NextClicked(totalPages) => ControlsShown(totalPages) && NextEnabled(f.page, totalPages)
    case _ => true
  }

  function Step(f: ViewState, e: Event): (r: ViewState)
    requires Enabled(f, e)
    ensures f.page >= 1 ==> r.page >= 1
  {
    match e
    case SearchTyped(value) => f.(search := value)
    case SearchSubmitted => f.(page := 1)
    case SpecializationSelected(value) => f.(specialization := value, page := 1)
    case FiltersCleared => f.(search := "", specialization := "", page := 1)
    case BookClicked(doctor) => f.(selectedDoctor := Some(doctor), isBookingModalOpen := true)
    case ModalClosed => f.(isBookingModalOpen := false)
    case PreviousClicked(_) => f.(page := f.page - 1)
    case NextClicked(_) => f.(page := f.page + 1)
  }

  predicate Admissible(f: ViewState, events: seq<Event>)
    decreases |events|
  {
    events == [] || (Enabled(f, events[0]) && Admissible(Step(f, events[0]), events[1..]))
  }

  function Run(f: ViewState, events: seq<Event>): ViewState
    requires Admissible(f, events)
    decreases |events|
  {
    if events == [] then f else Run(Step(f, events[0]), events[1..])
  }

  /** The page stays at least 1 along every run of enabled handlers. */
  lemma {:induction false} RunKeepsPagePositive(f: ViewState, events: seq<Event>)
    requires f.page >= 1 && Admissible(f, events)
    ensures Run(f, events).page >= 1
    decreases |events|
  {
    if events != [] {
      RunKeepsPagePositive(Step(f, events[0]), events[1..]);
    }
  }

  /** Once a doctor has been chosen, whenever the modal is open a doctor is selected. */
  lemma {:induction false} RunKeepsOpenModalWithDoctor(f: ViewState, events: seq<Event>)
    requires f.isBookingModalOpen ==> f.selectedDoctor.Some?
    requires Admissible(f, events)
    ensures Run(f, events).isBookingModalOpen ==> Run(f, events).selectedDoctor.Some?
    decreases |events|
  {
    if events != [] {
      RunKeepsOpenModalWithDoctor(Step(f, events[0]), events[1..]);
    }
  }

  /** No upper bound follows: typing a search keeps the page, so after moving to
      page 3 of 3 and typing, Next is still enabled on a result with two pages. */
  lemma PageCanPassTotalPages()
    ensures Admissible(Initial, [NextClicked(3), NextClicked(3), SearchTyped("a"), NextClicked(2)])
    ensures Run(Initial, [NextClicked(3), NextClicked(3), SearchTyped("a"), NextClicked(2)]).page == 4
  {
    var events := [NextClicked(3), NextClicked(3), SearchTyped("a"), NextClicked(2)];
    assert events[1..] == [NextClicked(3), SearchTyped("a"), NextClicked(2)];
    assert events[1..][1..] == [SearchTyped("a"), NextClicked(2)];
    assert events[1..][1..][1..] == [NextClicked(2)];
  }

  /** The query parameters: page and limit 9 always, search and specialization only when non-empty. */
  function QueryParams(f: ViewState): (p: DoctorsParams)
    ensures p.page == Some(f.page) && p.limit == Some(PageSize)
    ensures p.search == None <==> f.search == ""
    ensures p.search.Some? ==> p.search.value == f.search
    ensures p.specialization == None <==> f.specialization == ""
    ensures p.specialization.Some? ==> p.specialization.value == f.specialization
  {
    DoctorsParams(Some(f.page), Some(PageSize), OrUndefined(f.search), OrUndefined(f.specialization))
  }

  /** The query determines page, search and specialization. */
  lemma QueryParamsDetermineFilters(f: ViewState, g: ViewState)
    requires QueryParams(f) == QueryParams(g)
    ensures f.page == g.page && f.search == g.search && f.specialization == g.specialization
  {
    OrUndefinedRoundTrip(f.search);
    OrUndefinedRoundTrip(g.search);
    OrUndefinedRoundTrip(f.specialization);
    OrUndefinedRoundTrip(g.specialization);
  }

  function ListRequest(f: ViewState): (r: Request)
    ensures r.verb == GET && r.path == "/doctors"
    ensures r.payload == DoctorsQuery(QueryParams(f))
  {
    DoctorsCall(QueryParams(f))
  }

  class View {
    var page: int
    var search: string
    var specialization: string
    var selectedDoctor: Option<Doctor>
    var isBookingModalOpen: bool

    ghost predicate Valid()
      reads this
    {
      page >= 1
    }

    function State(): ViewState
      reads this
    {
      ViewState(page, search, specialization, selectedDoctor, isBookingModalOpen)
    }

    constructor ()
      ensures Valid() && State() == Initial
    {
      page, search, specialization := 1, "", "";
      selectedDoctor, isBookingModalOpen := None, false;
    }

    /** The search box's onChange: changes `search` only. */
    method TypeSearch(value: string)
      requires Valid()
      modifies this
      ensures Valid()
      ensures search == value && page == old(page) && specialization == old(specialization)
      ensures selectedDoctor == old(selectedDoctor) && isBookingModalOpen == old(isBookingModalOpen)
      ensures State() == Step(old(State()), SearchTyped(value))
    {
      search := value;
    }

    /** `handleSearch`: resets `page` to 1 and leaves `search` as typed. */
    method SubmitSearch()
      requires Valid()
      modifies this
      ensures Valid()
      ensures page == 1 && search == old(search) && specialization == old(specialization)
      ensures selectedDoctor == old(selectedDoctor) && isBookingModalOpen == old(isBookingModalOpen)
      ensures State() == Step(old(State()), SearchSubmitted)
    {
      page := 1;
    }

    /** `handleSpecializationChange`: sets `specialization`, then resets `page`. */
    method SelectSpecialization(value: string)
      requires Valid()
      modifies this
      ensures Valid()
      ensures specialization == value && page == 1 && search == old(search)
      ensures selectedDoctor == old(selectedDoctor) && isBookingModalOpen == old(isBookingModalOpen)
      ensures State() == Step(old(State()), SpecializationSelected(value))
    {
      specialization := value;
      page := 1;
    }

    /** `clearFilters`, reachable when the Clear button is shown. */
    method ClearFilters()
      requires Valid() && ClearShown(State())
      modifies this
      ensures Valid()
      ensures search == "" && specialization == "" && page == 1
      ensures selectedDoctor == old(selectedDoctor) && isBookingModalOpen == old(isBookingModalOpen)
      ensures State() == Step(old(State()), FiltersCleared)
    {
      search := "";
      specialization := "";
      page := 1;
    }

    /** `handleBookAppointment`: selects the doctor, then opens the modal. */
    method BookAppointment(doctor: Doctor)
      requires Valid()
      modifies this
      ensures Valid()
      ensures selectedDoctor == Some(doctor) && isBookingModalOpen
      ensures page == old(page) && search == old(search) && specialization == old(specialization)
      ensures State() == Step(old(State()), BookClicked(doctor))
    {
      selectedDoctor := Some(doctor);
      isBookingModalOpen := true;
    }

    /** The modal's onClose: clears the open flag and keeps `selectedDoctor`. */
    method CloseModal()
      requires Valid()
      modifies this
      ensures Valid()
      ensures !isBookingModalOpen && selectedDoctor == old(selectedDoctor)
      ensures page == old(page) && search == old(search) && specialization == old(specialization)
      ensures State() == Step(old(State()), ModalClosed)
    {
      isBookingModalOpen := false;
    }

    method Previous(totalPages: int)
      requires Valid() && ControlsShown(totalPages) && PreviousEnabled(page)
      modifies this
      ensures Valid()
      ensures page == old(page) - 1 && search == old(search) && specialization == old(specialization)
      ensures selectedDoctor == old(selectedDoctor) && isBookingModalOpen == old(isBookingModalOpen)
      ensures State() == Step(old(State()), PreviousClicked(totalPages))
    {
      page := page - 1;
    }

    method Next(totalPages: int)
      requires Valid() && ControlsShown(totalPages) && NextEnabled(page, totalPages)
      modifies this
      ensures Valid()
      ensures page == old(page) + 1 && search == old(search) && specialization == old(specialization)
      ensures selectedDoctor == old(selectedDoctor) && isBookingModalOpen == old(isBookingModalOpen)
      ensures State() == Step(old(State()), NextClicked(totalPages))
    {
      page := page + 1;
    }
  }
}
