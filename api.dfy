/** The HTTP client (src/lib/api.ts): a fixed table of endpoints, the request
    shapes they carry, and the interceptor that attaches the bearer token.
    A call is modelled as the request it would send; the network is not modelled. */
module Api {
  import opened Js
  import opened Types

  const BaseUrl: string := "https://appointment-manager-node.onrender.com/api/v1"

  /** The headers every request starts with. */
  const DefaultHeaders: map<string, string> := map["Content-Type" := "application/json"]

  const AuthorizationHeader: string := "Authorization"
  const BearerPrefix: string := "Bearer "

  datatype HttpMethod = GET | POST | PATCH

  datatype Endpoint =
    | Login
    | RegisterPatient
    | RegisterDoctor
    | Specializations
    | Doctors
    | CreateAppointment
    | PatientAppointments
    | DoctorAppointments
    | UpdateStatus

  datatype Route = Route(verb: HttpMethod, path: string)

  /** The endpoint table: each API function's fixed method and path. */
  function RouteOf(e: Endpoint): Route
  {
    match e
    case Login => Route(POST, "/auth/login")
    case RegisterPatient => Route(POST, "/auth/register/patient")
    case RegisterDoctor => Route(POST, "/auth/register/doctor")
    case Specializations => Route(GET, "/specializations")
    case Doctors => Route(GET, "/doctors")
    case CreateAppointment => Route(POST, "/appointments")
    case PatientAppointments => Route(GET, "/appointments/patient")
    case DoctorAppointments => Route(GET, "/appointments/doctor")
    case UpdateStatus => Route(PATCH, "/appointments/update-status")
  }

  /** Which endpoint, if any, a method and path name. */
  function Resolve(verb: HttpMethod, path: string): (r: Option<Endpoint>)
    ensures r.Some? ==> RouteOf(r.value) == Route(verb, path)
  {
    match verb
    case POST =>
      if path == "/auth/login" then Some(Login)
      else if path == "/auth/register/patient" then Some(RegisterPatient)
      else if path == "/auth/register/doctor" then Some(RegisterDoctor)
      else if path == "/appointments" then Some(CreateAppointment)
      else None
    case GET =>
      if path == "/specializations" then Some(Specializations)
      else if path == "/doctors" then Some(Doctors)
      else if path == "/appointments/patient" then Some(PatientAppointments)
      else if path == "/appointments/doctor" then Some(DoctorAppointments)
      else None
    case PATCH =>
      if path == "/appointments/update-status" then Some(UpdateStatus) else None
  }

  /** Every endpoint's route resolves back to that endpoint. */
  lemma {:induction false} RouteResolves(e: Endpoint)
    ensures Resolve(RouteOf(e).verb, RouteOf(e).path) == Some(e)
  {
    match e
    case Login =>
    case RegisterPatient =>
    case RegisterDoctor =>
    case Specializations =>
    case Doctors =>
    case CreateAppointment =>
    case PatientAppointments =>
    case DoctorAppointments =>
    case UpdateStatus =>
  }

  /** No two endpoints share a method and path. */
  lemma {:induction false} RoutesDistinct(e1: Endpoint, e2: Endpoint)
    requires RouteOf(e1) == RouteOf(e2)
    ensures e1 == e2
  {
    RouteResolves(e1);
    RouteResolves(e2);
  }

  /** The statuses a status update may carry: 'COMPLETED' | 'CANCELLED'. */
  type TargetStatus = s: Status | s != PENDING witness COMPLETED

  datatype DoctorsParams = DoctorsParams(
    page: Option<int>,
    limit: Option<int>,
    search: Option<string>,
    specialization: Option<string>)

  datatype PatientAppointmentsParams = PatientAppointmentsParams(
    status: Option<string>,
    page: Option<int>)

  datatype DoctorAppointmentsParams = DoctorAppointmentsParams(
    status: Option<string>,
    date: Option<string>,
    page: Option<int>)

  datatype CreateAppointmentRequest = CreateAppointmentRequest(doctorId: string, date: string)

  datatype UpdateStatusRequest = UpdateStatusRequest(status: TargetStatus, appointment_id: string)

  /** What a request carries: a JSON body, query parameters, or nothing. */
  datatype Payload =
    | NoPayload
    | LoginBody(login: LoginRequest)
    | RegisterPatientBody(patient: RegisterPatientRequest)
    | RegisterDoctorBody(doctor: RegisterDoctorRequest)
    | DoctorsQuery(doctors: DoctorsParams)
    | CreateAppointmentBody(create: CreateAppointmentRequest)
    | PatientAppointmentsQuery(patientAppointments: PatientAppointmentsParams)
    | DoctorAppointmentsQuery(doctorAppointments: DoctorAppointmentsParams)
    | UpdateStatusBody(update: UpdateStatusRequest)

  /** A request as the client issues it, before the interceptor runs. */
  datatype Request = Request(verb: HttpMethod, path: string, payload: Payload)

  /** The request an endpoint function issues with a given payload. */
  function Call(e: Endpoint, p: Payload): (r: Request)
    ensures Resolve(r.verb, r.path) == Some(e) && r.payload == p
  {
    RouteResolves(e);
    Request(RouteOf(e).verb, RouteOf(e).path, p)
  }

  /** authApi.login: POST /auth/login with the login data as body. */
  function LoginCall(data: LoginRequest): (r: Request)
    ensures r.verb == POST && r.path == "/auth/login" && r.payload.LoginBody? && r.payload.login == data
  {
    Call(Login, LoginBody(data))
  }

  /** authApi.registerPatient: POST /auth/register/patient. */
  function RegisterPatientCall(data: RegisterPatientRequest): (r: Request)
    ensures r.verb == POST && r.path == "/auth/register/patient"
    ensures r.payload.RegisterPatientBody? && r.payload.patient == data
  {
    Call(RegisterPatient, RegisterPatientBody(data))
  }

  /** authApi.registerDoctor: POST /auth/register/doctor. */
  function RegisterDoctorCall(data: RegisterDoctorRequest): (r: Request)
    ensures r.verb == POST && r.path == "/auth/register/doctor"
    ensures r.payload.RegisterDoctorBody? && r.payload.doctor == data
  {
    Call(RegisterDoctor, RegisterDoctorBody(data))
  }

  /** specializationsApi.getAll: GET /specializations, no parameters. */
  function SpecializationsCall(): (r: Request)
    ensures r.verb == GET && r.path == "/specializations" && r.payload == NoPayload
  {
    Call(Specializations, NoPayload)
  }

  /** doctorsApi.getAll: GET /doctors with the parameters as query string. */
  function DoctorsCall(params: DoctorsParams): (r: Request)
    ensures r.verb == GET && r.path == "/doctors"
    ensures r.payload.DoctorsQuery? && r.payload.doctors == params
  {
    Call(Doctors, DoctorsQuery(params))
  }

  /** appointmentsApi.create: POST /appointments. */
  function CreateAppointmentCall(data: CreateAppointmentRequest): (r: Request)
    ensures r.verb == POST && r.path == "/appointments"
    ensures r.payload.CreateAppointmentBody? && r.payload.create == data
  {
    Call(CreateAppointment, CreateAppointmentBody(data))
  }

  /** appointmentsApi.getPatientAppointments: GET /appointments/patient. */
  function PatientAppointmentsCall(params: PatientAppointmentsParams): (r: Request)
    ensures r.verb == GET && r.path == "/appointments/patient"
    ensures r.payload.PatientAppointmentsQuery? && r.payload.patientAppointments == params
  {
    Call(PatientAppointments, PatientAppointmentsQuery(params))
  }

  /** appointmentsApi.getDoctorAppointments: GET /appointments/doctor. */
  function DoctorAppointmentsCall(params: DoctorAppointmentsParams): (r: Request)
    ensures r.verb == GET && r.path == "/appointments/doctor"
    ensures r.payload.DoctorAppointmentsQuery? && r.payload.doctorAppointments == params
  {
    Call(DoctorAppointments, DoctorAppointmentsQuery(params))
  }

  /** appointmentsApi.updateStatus: PATCH /appointments/update-status; the
      status in the body is never PENDING. */
  function UpdateStatusCall(data: UpdateStatusRequest): (r: Request)
    ensures r.verb == PATCH && r.path == "/appointments/update-status"
    ensures r.payload.UpdateStatusBody? && r.payload.update == data
    ensures r.payload.update.status == COMPLETED || r.payload.update.status == CANCELLED
  {
    Call(UpdateStatus, UpdateStatusBody(data))
  }

  /** `if (token)`: a stored token counts only when present and non-empty. */
  predicate HasToken(token: Option<string>)
  {
    token.Some? && token.value != ""
  }

  /** The headers after the request interceptor has run. */
  function WithBearer(headers: map<string, string>, token: Option<string>): (h: map<string, string>)
    ensures HasToken(token) ==> AuthorizationHeader in h && h[AuthorizationHeader] == BearerPrefix + token.value
    ensures !HasToken(token) ==> h == headers
    ensures forall k :: k in headers && k != AuthorizationHeader ==> k in h && h[k] == headers[k]
    ensures forall k :: k in h && k != AuthorizationHeader ==> k in headers
  {
    if HasToken(token) then headers[AuthorizationHeader := BearerPrefix + token.value] else headers
  }

  /** The token a server would read from the Authorization header, if any. */
  function BearerTokenOf(headers: map<string, string>): Option<string>
  {
    if AuthorizationHeader in headers
       && |headers[AuthorizationHeader]| >= |BearerPrefix|
       && headers[AuthorizationHeader][..|BearerPrefix|] == BearerPrefix
    then Some(headers[AuthorizationHeader][|BearerPrefix|..])
    else None
  }

  /** The header the interceptor writes carries exactly the stored token. */
  lemma BearerRoundTrip(headers: map<string, string>, token: string)
    requires token != ""
    ensures BearerTokenOf(WithBearer(headers, Some(token))) == Some(token)
  {
    var v := BearerPrefix + token;
    assert v[..|BearerPrefix|] == BearerPrefix;
    assert v[|BearerPrefix|..] == token;
  }

  /** The interceptor never touches the default Content-Type. */
  lemma InterceptKeepsContentType(token: Option<string>)
    ensures "Content-Type" in WithBearer(DefaultHeaders, token)
    ensures WithBearer(DefaultHeaders, token)["Content-Type"] == "application/json"
  {
  }

  /** The request configuration axios hands to the interceptor. */
  class RequestConfig {
    var baseURL: string
    var verb: HttpMethod
    var url: string
    var headers: map<string, string>
    var payload: Payload

    /** The configuration of a request issued through the client instance. */
    constructor (r: Request)
      ensures baseURL == BaseUrl && verb == r.verb && url == r.path
      ensures headers == DefaultHeaders && payload == r.payload
    {
      baseURL := BaseUrl;
      verb := r.verb;
      url := r.path;
      headers := DefaultHeaders;
      payload := r.payload;
    }
  }

  /** The request interceptor: with a stored token it sets Authorization in
      place, and it returns the same configuration object. */
  method Intercept(config: RequestConfig, storedToken: Option<string>) returns (r: RequestConfig)
    modifies config
    ensures r == config
    ensures config.headers == WithBearer(old(config.headers), storedToken)
    ensures config.baseURL == old(config.baseURL) && config.verb == old(config.verb)
    ensures config.url == old(config.url) && config.payload == old(config.payload)
  {
    if storedToken.Some? && storedToken.value != "" {
      config.headers := config.headers[AuthorizationHeader := BearerPrefix + storedToken.value];
    }
    r := config;
  }
}
