/** The doctor's appointment list (src/components/doctor/AppointmentManagement.tsx):
    page, status and date filters changed by the view's handlers, the query they
    produce, the status badge, and the Complete/Cancel actions on PENDING rows. */
module AppointmentManagement {
  import opened Js
  import opened Types
  import opened Api
  import opened Effects
  import opened Listing

  /** The react-query key under which this list is cached. */
  const QueryKeyName: string := "doctor-appointments"

  /** The view's state: `page`, `status`, `date`. */
  datatype ViewState = ViewState(page: int, status: string, date: string)

  /** `useState(1)`, `useState('')`, `useState('')`. */
  const Initial: ViewState := ViewState(1, "", "")

  /** The user actions that change the state. */
  datatype Event =
    | StatusSelected(filter: StatusFilter)
    | DateEntered(value: string)
    | FiltersCleared
    | PreviousClicked(totalPages: int)
    | NextClicked(totalPages: int)

  /** `(status || date)`: the Clear Filters button is rendered. */
  predicate ClearShown(f: ViewState)
  {
    f.status != "" || f.date != ""
  }

  /** The control that raises the event is rendered and not disabled. */
  predicate Enabled(f: ViewState, e: Event)
  {
    match e
    case FiltersCleared => ClearShown(f)
    case PreviousClicked(totalPages) => ControlsShown(totalPages) && PreviousEnabled(f.page)
    case NextClicked(totalPages) => ControlsShown(totalPages) && NextEnabled(f.page, totalPages)
    case _ => true
  }

  /** The state after one handler has run. */
  function Step(f: ViewState, e: Event): (r: ViewState)
    requires Enabled(f, e)
    ensures f.page >= 1 ==> r.page >= 1
  {
    match e
    case StatusSelected(filter) => f.(status := FilterValue(filter))
    case DateEntered(value) => f.(date := value)
    case FiltersCleared => ViewState(1, "", "")
    case PreviousClicked(_) => f.(page := f.page - 1)
    case NextClicked(_) => f.(page := f.page + 1)
  }

  /** Every event of the run is enabled when it happens. */
  predicate Admissible(f: ViewState, events: seq<Event>)
    decreases |events|
  {
    events == [] || (Enabled(f, events[0]) && Admissible(Step(f, events[0]), events[1..]))
  }

  function Run(f: ViewState, events: seq<Event>): ViewState
    requires Admissible(f, events)
    decreases |events|
  {
    if events == [] then f else Run(Step(f, events[0]), events[1..])
  }

  /** The page stays at least 1 along every run of enabled handlers. */
  lemma {:induction false} RunKeepsPagePositive(f: ViewState, events: seq<Event>)
    requires f.page >= 1 && Admissible(f, events)
    ensures Run(f, events).page >= 1
    decreases |events|
  {
    if events != [] {
      RunKeepsPagePositive(Step(f, events[0]), events[1..]);
    }
  }

  /** From the initial state, every reachable page is at least 1. */
  lemma ReachablePagePositive(events: seq<Event>)
    requires Admissible(Initial, events)
    ensures Run(Initial, events).page >= 1
  {
    RunKeepsPagePositive(Initial, events);
  }

  /** No upper bound follows: on page 3 of 3, selecting a status that has two
      pages keeps page 3, where Next is still enabled and leads to page 4. */
  lemma PageCanPassTotalPages()
    ensures Admissible(Initial, [NextClicked(3), NextClicked(3), StatusSelected(OnlyStatus(PENDING)), NextClicked(2)])
    ensures Run(Initial, [NextClicked(3), NextClicked(3), StatusSelected(OnlyStatus(PENDING)), NextClicked(2)]).page == 4
  {
    var s1 := Step(Initial, NextClicked(3));
    var s2 := Step(s1, NextClicked(3));
    var s3 := Step(s2, StatusSelected(OnlyStatus(PENDING)));
    assert s3.page == 3;
    var events := [NextClicked(3), NextClicked(3), StatusSelected(OnlyStatus(PENDING)), NextClicked(2)];
    assert events[1..] == [NextClicked(3), StatusSelected(OnlyStatus(PENDING)), NextClicked(2)];
    assert events[1..][1..] == [StatusSelected(OnlyStatus(PENDING)), NextClicked(2)];
    assert events[1..][1..][1..] == [NextClicked(2)];
  }

  /** The query parameters: `page` always, `status`/`date` only when non-empty. */
  function QueryParams(f: ViewState): (p: DoctorAppointmentsParams)
    ensures p.page == Some(f.page)
    ensures p.status == None <==> f.status == ""
    ensures p.status.Some? ==> p.status.value == f.status
    ensures p.date == None <==> f.date == ""
    ensures p.date.Some? ==> p.date.value == f.date
  {
    DoctorAppointmentsParams(OrUndefined(f.status), OrUndefined(f.date), Some(f.page))
  }

  /** The filter state read back from the query it produced. */
  function StateOf(p: DoctorAppointmentsParams): ViewState
    requires p.page.Some?
  {
    ViewState(p.page.value, OrEmpty(p.status), OrEmpty(p.date))
  }

  /** The query determines the filter state: distinct states send distinct queries. */
  lemma QueryParamsRoundTrip(f: ViewState)
    ensures StateOf(QueryParams(f)) == f
  {
    OrUndefinedRoundTrip(f.status);
    OrUndefinedRoundTrip(f.date);
  }

  /** The request the list query issues for the current state. */
  function ListRequest(f: ViewState): (r: Request)
    ensures r.verb == GET && r.path == "/appointments/doctor"
    ensures r.payload == DoctorAppointmentsQuery(QueryParams(f))
  {
    DoctorAppointmentsCall(QueryParams(f))
  }

  /** `getStatusColor`. */
  function StatusColor(status: string): (c: string)
    ensures status == "PENDING" ==> c == YellowBadge
    ensures status == "COMPLETED" ==> c == GreenBadge
    ensures status == "CANCELLED" ==> c == RedBadge
    ensures c == GrayBadge <==> ParseStatus(status).None?
  {
    if status == "PENDING" then YellowBadge
    else if status == "COMPLETED" then GreenBadge
    else if status == "CANCELLED" then RedBadge
    else GrayBadge
  }

  /** The actions offered on an appointment row, as the target status each requests. */
  function Actions(a: Appointment): (targets: seq<TargetStatus>)
    ensures targets != [] <==> a.status == PENDING
    ensures targets != [] ==> targets == [COMPLETED, CANCELLED]
  {
    if a.status == PENDING then [COMPLETED, CANCELLED] else []
  }

  /** The verb phrase of the confirmation prompt. */
  function ConfirmAction(newStatus: TargetStatus): string
  {
    if newStatus == COMPLETED then "mark as completed" else "cancel"
  }

  /** The question put to the doctor before a status update. */
  function ConfirmPrompt(newStatus: TargetStatus): (prompt: string)
    ensures newStatus == COMPLETED ==> prompt == "Are you sure you want to mark as completed this appointment?"
    ensures newStatus == CANCELLED ==> prompt == "Are you sure you want to cancel this appointment?"
  {
    PromptTexts();
    "Are you sure you want to " + ConfirmAction(newStatus) + " this appointment?"
  }

  /** The two prompts spelled out. */
  lemma PromptTexts()
    ensures "Are you sure you want to " + "mark as completed" + " this appointment?"
         == "Are you sure you want to mark as completed this appointment?"
    ensures "Are you sure you want to " + "cancel" + " this appointment?"
         == "Are you sure you want to cancel this appointment?"
  {
  }

  /** The two targets ask different questions. */
  lemma PromptsDistinct()
    ensures ConfirmPrompt(COMPLETED) != ConfirmPrompt(CANCELLED)
  {
    assert ConfirmPrompt(COMPLETED)[25] == 'm' && ConfirmPrompt(CANCELLED)[25] == 'c';
  }

  /** `handleStatusUpdate`: `confirm` is the doctor's answer to a prompt; the
      update is sent only if the answer to this target's prompt is yes. */
  function HandleStatusUpdate(appointmentId: string, newStatus: TargetStatus, confirm: string -> bool): (effects: seq<Effect>)
    ensures effects != [] <==> confirm(ConfirmPrompt(newStatus))
    ensures effects != [] ==> effects == [Send(UpdateStatusCall(UpdateStatusRequest(newStatus, appointmentId)))]
    ensures effects != [] ==> effects[0].request.verb == PATCH && effects[0].request.path == "/appointments/update-status"
  {
    if confirm(ConfirmPrompt(newStatus)) then [Send(UpdateStatusCall(UpdateStatusRequest(newStatus, appointmentId)))] else []
  }

  /** A row's action button, once confirmed, sends that row's id with the button's target. */
  lemma {:induction false} ActionRequestsTarget(a: Appointment, k: nat)
    requires k < |Actions(a)|
    ensures a.status == PENDING
    ensures HandleStatusUpdate(a.id, Actions(a)[k], _ => true)[0].request.payload.update
         == UpdateStatusRequest(if k == 0 then COMPLETED else CANCELLED, a.id)
  {
  }

  /** The mutation's success effects: a toast, then the list is invalidated. */
  function OnUpdateSuccess(): (effects: seq<Effect>)
    ensures |effects| == 2
    ensures Precedes(effects, Toast(Success, "Appointment status updated successfully"), Invalidate(QueryKeyName))
  {
    var effects := [Toast(Success, "Appointment status updated successfully"), Invalidate(QueryKeyName)];
    assert effects[0] == Toast(Success, "Appointment status updated successfully") && effects[1] == Invalidate(QueryKeyName);
    effects
  }

  /** The mutation's error toast: the backend message, else the fallback. */
  function OnUpdateError(message: Option<string>): (e: Effect)
    ensures e.Toast? && e.kind == Error
    ensures message.Some? && message.value != "" ==> e.message == message.value
    ensures message.None? || message.value == "" ==> e.message == "Failed to update appointment status"
  {
    Toast(Error, OrElse(message, "Failed to update appointment status"))
  }

  /** The empty-list hint depends on the same condition as the Clear button. */
  function EmptyHint(f: ViewState): (hint: string)
    ensures hint == "Try adjusting your filters" <==> ClearShown(f)
    ensures !ClearShown(f) ==> hint == "You have no appointments yet"
  {
    if f.status != "" || f.date != "" then "Try adjusting your filters" else "You have no appointments yet"
  }

  /** The component's state as mutable fields. */
  class View {
    var page: int
    var status: string
    var date: string

    ghost predicate Valid()
      reads this
    {
      page >= 1
    }

    function State(): ViewState
      reads this
    {
      ViewState(page, status, date)
    }

    constructor ()
      ensures Valid() && State() == Initial
    {
      page, status, date := 1, "", "";
    }

    /** The status select's onChange: sets `status`, keeps `page`. */
    method SelectStatus(filter: StatusFilter)
      requires Valid()
      modifies this
      ensures Valid()
      ensures status == FilterValue(filter) && page == old(page) && date == old(date)
      ensures State() == Step(old(State()), StatusSelected(filter))
    {
      status := FilterValue(filter);
    }

    /** The date input's onChange: sets `date`, keeps `page`. */
    method EnterDate(value: string)
      requires Valid()
      modifies this
      ensures Valid()
      ensures date == value && page == old(page) && status == old(status)
      ensures State() == Step(old(State()), DateEntered(value))
    {
      date := value;
    }

    /** `clearFilters`, reachable when the Clear button is shown. */
    method ClearFilters()
      requires Valid() && ClearShown(State())
      modifies this
      ensures Valid()
      ensures status == "" && date == "" && page == 1
      ensures State() == Step(old(State()), FiltersCleared)
    {
      status := "";
      date := "";
      page := 1;
    }

    /** Previous, reachable when the controls are shown and `page !== 1`. */
    method Previous(totalPages: int)
      requires Valid() && ControlsShown(totalPages) && PreviousEnabled(page)
      modifies this
      ensures Valid()
      ensures page == old(page) - 1 && status == old(status) && date == old(date)
      ensures State() == Step(old(State()), PreviousClicked(totalPages))
    {
      page := page - 1;
    }

    /** Next, reachable when the controls are shown and `page !== totalPages`. */
    method Next(totalPages: int)
      requires Valid() && ControlsShown(totalPages) && NextEnabled(page, totalPages)
      modifies this
      ensures Valid()
      ensures page == old(page) + 1 && status == old(status) && date == old(date)
      ensures State() == Step(old(State()), NextClicked(totalPages))
    {
      page := page + 1;
    }
  }
}
