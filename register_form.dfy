/** The registration form (src/components/auth/RegisterForm.tsx): the patient /
    doctor tab, the `photo_url` normalisation of both submissions, and the
    per-tab redirect after success. */
module RegisterForm {
  import opened Js
  import opened Types
  import opened Api
  import opened Effects

  datatype Tab = PatientTab | DoctorTab

  /** `onPatientSubmit`'s `submitData`: an empty `photo_url` becomes absent,
      every other field is passed on unchanged. */
  function PatientSubmitData(data: RegisterPatientRequest): (r: RegisterPatientRequest)
    ensures r.(photo_url := data.photo_url) == data
    ensures r.photo_url.Some? <==> data.photo_url.Some? && data.photo_url.value != ""
    ensures r.photo_url.Some? ==> r.photo_url == data.photo_url
  {
    data.(photo_url := OptionalOrUndefined(data.photo_url))
  }

  /** `onDoctorSubmit`'s `submitData`, with the same normalisation. */
  function DoctorSubmitData(data: RegisterDoctorRequest): (r: RegisterDoctorRequest)
    ensures r.(photo_url := data.photo_url) == data
    ensures r.photo_url.Some? <==> data.photo_url.Some? && data.photo_url.value != ""
    ensures r.photo_url.Some? ==> r.photo_url == data.photo_url
  {
    data.(photo_url := OptionalOrUndefined(data.photo_url))
  }

  /** A submitted registration never carries an empty photo URL, and
      normalising an already normalised submission changes nothing. */
  lemma SubmitDataNormalised(p: RegisterPatientRequest, d: RegisterDoctorRequest)
    ensures PatientSubmitData(p).photo_url != Some("") && DoctorSubmitData(d).photo_url != Some("")
    ensures PatientSubmitData(PatientSubmitData(p)) == PatientSubmitData(p)
    ensures DoctorSubmitData(DoctorSubmitData(d)) == DoctorSubmitData(d)
  {
  }

  /** `onPatientSubmit`: one POST to /auth/register/patient with the normalised data. */
  function OnPatientSubmit(data: RegisterPatientRequest): (effects: seq<Effect>)
    ensures |effects| == 1 && effects[0].Send?
    ensures effects[0].request.verb == POST && effects[0].request.path == "/auth/register/patient"
    ensures effects[0].request.payload == RegisterPatientBody(PatientSubmitData(data))
  {
    [Send(RegisterPatientCall(PatientSubmitData(data)))]
  }

  /** `onDoctorSubmit`: one POST to /auth/register/doctor with the normalised data. */
  function OnDoctorSubmit(data: RegisterDoctorRequest): (effects: seq<Effect>)
    ensures |effects| == 1 && effects[0].Send?
    ensures effects[0].request.verb == POST && effects[0].request.path == "/auth/register/doctor"
    ensures effects[0].request.payload == RegisterDoctorBody(DoctorSubmitData(data))
  {
    [Send(RegisterDoctorCall(DoctorSubmitData(data)))]
  }

  /** The dashboard each tab's registration leads to, whatever role the backend returns. */
  function RedirectPath(tab: Tab): (path: string)
    ensures path == "/doctor/dashboard" <==> tab == DoctorTab
    ensures path != "/doctor/dashboard" ==> path == "/patient/dashboard"
  {
    match tab
    case PatientTab => "/patient/dashboard"
    case DoctorTab => "/doctor/dashboard"
  }

  /** Either mutation's `onSuccess`: store the session, toast, then navigate. */
  function OnSuccess(tab: Tab, response: ApiResponse<AuthPayload>): (effects: seq<Effect>)
    ensures |effects| == 3 && effects[1] == Toast(Success, "Registration successful!")
    ensures Pushes(effects) == [RedirectPath(tab)]
    ensures Precedes(effects, SessionLogin(response.data.user, response.data.token), Push(RedirectPath(tab)))
  {
    var user, token := response.data.user, response.data.token;
    var effects := [SessionLogin(user, token), Toast(Success, "Registration successful!"), Push(RedirectPath(tab))];
    assert effects[0] == SessionLogin(user, token) && effects[2] == Push(RedirectPath(tab));
    assert effects[1..][1..][1..] == [];
    effects
  }

  /** Either mutation's `onError`: the backend message, else 'Registration failed'. */
  function OnError(message: Option<string>): (e: Effect)
    ensures e.Toast? && e.kind == Error
    ensures message.Some? && message.value != "" ==> e.message == message.value
    ensures message.None? || message.value == "" ==> e.message == "Registration failed"
  {
    Toast(Error, OrElse(message, "Registration failed"))
  }

  /** The form's local state: the active tab and the shared password toggle. */
  class View {
    var activeTab: Tab
    var showPassword: bool

    constructor ()
      ensures activeTab == PatientTab && !showPassword
    {
      activeTab := PatientTab;
      showPassword := false;
    }

    method SelectTab(tab: Tab)
      modifies this
      ensures activeTab == tab && showPassword == old(showPassword)
    {
      activeTab := tab;
    }

    method TogglePassword()
      modifies this
      ensures showPassword == !old(showPassword) && activeTab == old(activeTab)
    {
      showPassword := !showPassword;
    }
  }
}
