/** The top navigation bar (src/components/layout/Navbar.tsx): nothing without
    a user, otherwise role-dependent links and the role label; logout clears the
    session and goes to the login page. */
module Navbar {
  import opened Js
  import opened Types
  import opened Effects

  /** `toLowerCase` on one character, for the ASCII letters the role names use. */
  function LowerChar(c: char): char
  {
    if 'A' <= c <= 'Z' then (c as int - 'A' as int + 'a' as int) as char else c
  }

  function Lower(s: string): (r: string)
    ensures |r| == |s|
    ensures forall i :: 0 <= i < |s| ==> r[i] == LowerChar(s[i])
  {
    if s == [] then [] else [LowerChar(s[0])] + Lower(s[1..])
  }

  /** The role label: `user.role.toLowerCase()`. */
  function RoleLabel(role: Role): (text: string)
    ensures role == DOCTOR ==> text == "doctor"
    ensures role == PATIENT ==> text == "patient"
  {
    var text := Lower(RoleName(role));
    assert role == DOCTOR ==> text == "doctor";
    assert role == PATIENT ==> text == "patient";
    text
  }

  /** What the bar renders for a signed-in user. */
  datatype NavView = NavView(
    dashboardPath: string,
    appointmentsPath: string,
    showAppointmentsLink: bool,
    name: string,
    roleLabel: string,
    photo_url: Option<string>)

  /** `if (!user) return null`; otherwise the links chosen by `isDoctorRole`. */
  function Render(user: Option<User>): (v: Option<NavView>)
    ensures v.None? <==> user.None?
    ensures v.Some? ==> (v.value.dashboardPath == "/doctor/dashboard" <==> user.value.role == DOCTOR)
    ensures v.Some? && user.value.role != DOCTOR ==> v.value.dashboardPath == "/patient/dashboard"
    ensures v.Some? ==> (v.value.appointmentsPath == "/patient/appointments" <==> user.value.role != DOCTOR)
    ensures v.Some? && user.value.role == DOCTOR ==> v.value.appointmentsPath == "/doctor/dashboard"
    ensures v.Some? ==> (v.value.showAppointmentsLink <==> user.value.role != DOCTOR)
    ensures v.Some? ==> v.value.roleLabel == RoleLabel(user.value.role) && v.value.name == user.value.name
  {
    match user
    case None => None
    case Some(u) =>
      var isDoctorRole := u.role == DOCTOR;
      var dashboardPath := if isDoctorRole then "/doctor/dashboard" else "/patient/dashboard";
      var appointmentsPath := if isDoctorRole then "/doctor/dashboard" else "/patient/appointments";
      Some(NavView(dashboardPath, appointmentsPath, !isDoctorRole, u.name, RoleLabel(u.role), u.photo_url))
  }

  /** The "My Appointments" link, whenever shown, leads to the patient's list. */
  lemma AppointmentsLinkGoesToPatientList(u: User)
    requires Render(Some(u)).value.showAppointmentsLink
    ensures Render(Some(u)).value.appointmentsPath == "/patient/appointments"
  {
  }

  /** `handleLogout`: clear the session, then navigate to the login page. */
  function HandleLogout(): (effects: seq<Effect>)
    ensures |effects| == 2
    ensures Precedes(effects, SessionLogout, Push("/login"))
    ensures Pushes(effects) == ["/login"]
  {
    var effects := [SessionLogout, Push("/login")];
    assert effects[0] == SessionLogout && effects[1] == Push("/login");
    assert effects[1..][1..] == [];
    effects
  }
}
