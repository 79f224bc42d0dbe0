/** Rules that several components each implement on their own, checked against
    one reference definition so that the copies cannot drift apart. */
module Consistency {
  import opened Js
  import opened Types
  import opened Effects
  import LoginForm
  import RegisterForm
  import Navbar
  import HomePage
  import AppointmentManagement
  import AppointmentCard
  import BookAppointmentModal
  import PatientAppointments

  /** The dashboard of each role. */
  function RoleDashboard(role: Role): (path: string)
    ensures path == "/doctor/dashboard" || path == "/patient/dashboard"
  {
    match role
    case DOCTOR => "/doctor/dashboard"
    case PATIENT => "/patient/dashboard"
  }

  /** Login, the navbar and the root page all send a user to their role's dashboard,
      and each registration tab leads to the dashboard of the role it registers. */
  lemma DashboardRuleAgrees(u: User)
    ensures LoginForm.RedirectPath(u) == RoleDashboard(u.role)
    ensures Navbar.Render(Some(u)).Some? && Navbar.Render(Some(u)).value.dashboardPath == RoleDashboard(u.role)
    ensures HomePage.Redirect(true, Some(u)) == RoleDashboard(u.role)
    ensures RegisterForm.RedirectPath(RegisterForm.PatientTab) == RoleDashboard(PATIENT)
    ensures RegisterForm.RedirectPath(RegisterForm.DoctorTab) == RoleDashboard(DOCTOR)
  {
  }

  /** The doctor's table and the patient's card colour every status string alike. */
  lemma StatusColorsAgree(status: string)
    ensures AppointmentManagement.StatusColor(status) == AppointmentCard.StatusColor(status)
  {
  }

  /** Cancelling and booking refresh the list the patient's page queries; a status
      update refreshes the list the doctor's page queries. */
  lemma InvalidationsHitTheirLists()
    ensures Invalidate(PatientAppointments.QueryKeyName) in AppointmentCard.OnCancelSuccess()
    ensures Invalidate(PatientAppointments.QueryKeyName) in BookAppointmentModal.OnBookSuccess()
    ensures Invalidate(AppointmentManagement.QueryKeyName) in AppointmentManagement.OnUpdateSuccess()
  {
  }

  /** The patient's cancel button asks the doctor's cancel question and, on a yes,
      sends the very request the doctor's Cancel action sends. */
  lemma CancelPathsAgree(a: Appointment, confirm: string -> bool)
    requires AppointmentCard.CancelShown(a)
    ensures AppointmentCard.CancelPrompt == AppointmentManagement.ConfirmPrompt(CANCELLED)
    ensures AppointmentCard.HandleCancel(a, confirm) == AppointmentManagement.HandleStatusUpdate(a.id, CANCELLED, confirm)
  {
  }
}
