/** The booking dialog (src/components/patient/BookAppointmentModal.tsx): the
    request its submit builds, the ordered reset-then-close effects, and the
    earliest selectable date. */
module BookAppointmentModal {
  import opened Js
  import opened Types
  import opened Api
  import opened Effects
  import opened Calendar

  /** The form's fields: a hidden doctorId and the chosen date. */
  datatype AppointmentFormData = AppointmentFormData(doctorId: string, date: string)

  /** `onSubmit`: with no doctor nothing is sent; otherwise the request takes
      the doctor's id from the prop and the date from the form. */
  function OnSubmit(doctor: Option<Doctor>, data: AppointmentFormData): (effects: seq<Effect>)
    ensures doctor.None? ==> effects == []
    ensures doctor.Some? ==> effects == [Send(CreateAppointmentCall(CreateAppointmentRequest(doctor.value.id, data.date)))]
  {
    match doctor
    case None => []
    case Some(d) => [Send(CreateAppointmentCall(CreateAppointmentRequest(d.id, data.date)))]
  }

  /** The hidden form field `doctorId` has no influence on what is sent. */
  lemma SubmitIgnoresFormDoctorId(doctor: Option<Doctor>, data: AppointmentFormData, otherId: string)
    ensures OnSubmit(doctor, data) == OnSubmit(doctor, data.(doctorId := otherId))
  {
  }

  /** `handleClose`: reset the form, then call `onClose`. */
  function HandleClose(): (effects: seq<Effect>)
    ensures |effects| == 2
    ensures Precedes(effects, ResetForm, CloseModal)
  {
    var effects := [ResetForm, CloseModal];
    assert effects[0] == ResetForm && effects[1] == CloseModal;
    effects
  }

  /** The booking mutation's success effects: toast, invalidate the patient list,
      then the same reset-then-close sequence as `handleClose`. */
  function OnBookSuccess(): (effects: seq<Effect>)
    ensures |effects| == 4
    ensures effects[0] == Toast(Success, "Appointment booked successfully!") && effects[1] == Invalidate("patient-appointments")
    ensures effects[2..] == HandleClose()
    ensures Invalidate("patient-appointments") in effects
  {
    [Toast(Success, "Appointment booked successfully!"), Invalidate("patient-appointments")] + HandleClose()
  }

  /** The booking mutation's error toast. */
  function OnBookError(message: Option<string>): (e: Effect)
    ensures e.Toast? && e.kind == Error
    ensures message.Some? && message.value != "" ==> e.message == message.value
    ensures message.None? || message.value == "" ==> e.message == "Failed to book appointment"
  {
    Toast(Error, OrElse(message, "Failed to book appointment"))
  }

  /** `minDate`: the date part of the ISO string of this moment one day later. */
  function MinDate(today: CivilDate, now: TimeOfDay): (s: string)
    requires ValidDate(today) && Before(today, MaxDate) && ValidTime(now)
    ensures s == DateText(NextDay(today))
  {
    DatePartOfIsoString(NextDay(today), now);
    DatePart(IsoString(NextDay(today), now))
  }

  /** What the dialog renders when it renders anything. */
  datatype ModalView = ModalView(isOpen: bool, doctor: Doctor, minDate: string)

  /** `if (!doctor) return null`; otherwise the dialog with its minimum date. */
  function Render(isOpen: bool, doctor: Option<Doctor>, today: CivilDate, now: TimeOfDay): (v: Option<ModalView>)
    requires ValidDate(today) && Before(today, MaxDate) && ValidTime(now)
    ensures v.None? <==> doctor.None?
    ensures v.Some? ==> v.value.doctor == doctor.value && v.value.isOpen == isOpen
    ensures v.Some? ==> v.value.minDate == DateText(NextDay(today))
  {
    match doctor
    case None => None
    case Some(d) => Some(ModalView(isOpen, d, MinDate(today, now)))
  }

  /** The minimum date names a day strictly after today. */
  lemma MinDateAfterToday(today: CivilDate, now: TimeOfDay)
    requires ValidDate(today) && Before(today, MaxDate) && ValidTime(now)
    ensures exists d :: ValidDate(d) && Before(today, d) && MinDate(today, now) == DateText(d)
  {
    var d := NextDay(today);
    assert ValidDate(d) && Before(today, d) && MinDate(today, now) == DateText(d);
  }
}
