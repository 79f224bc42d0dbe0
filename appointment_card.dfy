/** One appointment in the patient's list (src/components/patient/AppointmentCard.tsx):
    its status badge, and the cancel control offered only while it is PENDING. */
module AppointmentCard {
  import opened Js
  import opened Types
  import opened Api
  import opened Effects
  import opened Listing

  /** The query key this card invalidates after a cancellation. */
  const InvalidatedKey: string := "patient-appointments"

  /** `getStatusColor` (this component's own copy). */
  function StatusColor(status: string): (c: string)
    ensures status == "PENDING" ==> c == YellowBadge
    ensures status == "COMPLETED" ==> c == GreenBadge
    ensures status == "CANCELLED" ==> c == RedBadge
    ensures c == GrayBadge <==> ParseStatus(status).None?
  {
    match status
    case "PENDING" => YellowBadge
    case "COMPLETED" => GreenBadge
    case "CANCELLED" => RedBadge
    case _ => GrayBadge
  }

  /** The badge of an appointment is never the gray default. */
  lemma BadgeNeverGray(a: Appointment)
    ensures StatusColor(StatusName(a.status)) != GrayBadge
  {
    ParseStatusName(a.status);
  }

  /** The cancel button is rendered. */
  predicate CancelShown(a: Appointment)
  {
    a.status == PENDING
  }

  /** The cancel mutation's request: this appointment's id with status CANCELLED. */
  function CancelRequest(a: Appointment): (r: Request)
    ensures r.verb == PATCH && r.path == "/appointments/update-status"
    ensures r.payload == UpdateStatusBody(UpdateStatusRequest(CANCELLED, a.id))
  {
    UpdateStatusCall(UpdateStatusRequest(CANCELLED, a.id))
  }

  /** The question put to the patient before a cancellation. */
  const CancelPrompt: string := "Are you sure you want to cancel this appointment?"

  /** `handleCancel`, reachable from the cancel button: `confirm` is the patient's
      answer to a prompt, and the request is sent only if the answer is yes. */
  function HandleCancel(a: Appointment, confirm: string -> bool): (effects: seq<Effect>)
    requires CancelShown(a)
    ensures confirm(CancelPrompt) ==> effects == [Send(CancelRequest(a))]
    ensures !confirm(CancelPrompt) ==> effects == []
  {
    if confirm(CancelPrompt) then [Send(CancelRequest(a))] else []
  }

  /** The cancel mutation's success effects: a toast, then the patient list is invalidated. */
  function OnCancelSuccess(): (effects: seq<Effect>)
    ensures |effects| == 2
    ensures Precedes(effects, Toast(Success, "Appointment cancelled successfully"), Invalidate(InvalidatedKey))
  {
    var effects := [Toast(Success, "Appointment cancelled successfully"), Invalidate(InvalidatedKey)];
    assert effects[0] == Toast(Success, "Appointment cancelled successfully") && effects[1] == Invalidate(InvalidatedKey);
    effects
  }

  /** The cancel mutation's error toast: the backend message, else the fallback. */
  function OnCancelError(message: Option<string>): (e: Effect)
    ensures e.Toast? && e.kind == Error
    ensures message.Some? && message.value != "" ==> e.message == message.value
    ensures message.None? || message.value == "" ==> e.message == "Failed to cancel appointment"
  {
    Toast(Error, OrElse(message, "Failed to cancel appointment"))
  }
}
