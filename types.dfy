/** The records the client exchanges with the backend (src/types/index.ts). */
module Types {
  import opened Js

  /** A user's role: exactly these two. */
  datatype Role = DOCTOR | PATIENT

  /** An appointment's status: exactly these three. */
  datatype Status = PENDING | COMPLETED | CANCELLED

  /** The string literal TypeScript uses for a role. */
  function RoleName(r: Role): string
  {
    match r
    case DOCTOR => "DOCTOR"
    case PATIENT => "PATIENT"
  }

  /** The string literal TypeScript uses for a status. */
  function StatusName(s: Status): string
  {
    match s
    case PENDING => "PENDING"
    case COMPLETED => "COMPLETED"
    case CANCELLED => "CANCELLED"
  }

  /** Recognises a status literal; the inverse of StatusName. */
  function ParseStatus(s: string): (r: Option<Status>)
    ensures r.Some? ==> StatusName(r.value) == s
    ensures r.None? ==> forall st: Status :: StatusName(st) != s
  {
    if s == "PENDING" then Some(PENDING)
    else if s == "COMPLETED" then Some(COMPLETED)
    else if s == "CANCELLED" then Some(CANCELLED)
    else None
  }

  /** Every status literal is recognised as that status. */
  lemma {:induction false} ParseStatusName(st: Status)
    ensures ParseStatus(StatusName(st)) == Some(st)
  {
    match st
    case PENDING =>
    case COMPLETED =>
    case CANCELLED =>
  }

  datatype User = User(
    id: string,
    name: string,
    email: string,
    role: Role,
    photo_url: Option<string>,
    specialization: Option<string>)

  /** Unlike User, a Doctor always carries a specialization. */
  datatype Doctor = Doctor(
    id: string,
    name: string,
    email: string,
    specialization: string,
    photo_url: Option<string>)

  datatype Appointment = Appointment(
    id: string,
    doctorId: string,
    patientId: string,
    date: string,
    status: Status,
    doctor: Option<Doctor>,
    patient: Option<User>)

  datatype LoginRequest = LoginRequest(email: string, password: string, role: Role)

  /** A patient registers without a specialization. */
  datatype RegisterPatientRequest = RegisterPatientRequest(
    name: string,
    email: string,
    password: string,
    photo_url: Option<string>)

  /** A doctor must register with a specialization. */
  datatype RegisterDoctorRequest = RegisterDoctorRequest(
    name: string,
    email: string,
    password: string,
    specialization: string,
    photo_url: Option<string>)

  datatype ApiResponse<T> = ApiResponse(success: bool, data: T, message: Option<string>)

  datatype Pagination = Pagination(page: int, limit: int, total: int, totalPages: int)

  /** The pagination envelope: one page of items and its position in the whole list. */
  datatype PaginatedResponse<T> = PaginatedResponse(data: seq<T>, pagination: Pagination)

  /** The `{ user, token }` payload of a successful login or registration. */
  datatype AuthPayload = AuthPayload(user: User, token: string)
}
