/** The sign-in form (src/components/auth/LoginForm.tsx): its local state, what
    it sends, and what a successful or failed login does. */
module LoginForm {
  import opened Js
  import opened Types
  import opened Api
  import opened Effects

  /** `defaultValues: { role: 'PATIENT' }`. */
  const DefaultRole: Role := PATIENT

  /** `onSubmit`: the form data goes to the login call unchanged. */
  function OnSubmit(data: LoginRequest): (effects: seq<Effect>)
    ensures |effects| == 1 && effects[0].Send?
    ensures effects[0].request.payload == LoginBody(data)
    ensures Resolve(effects[0].request.verb, effects[0].request.path) == Some(Login)
  {
    [Send(LoginCall(data))]
  }

  /** The redirect after login, chosen by the role of the user the backend returned. */
  function RedirectPath(user: User): (path: string)
    ensures path == "/doctor/dashboard" <==> user.role == DOCTOR
    ensures path != "/doctor/dashboard" ==> path == "/patient/dashboard"
  {
    if user.role == DOCTOR then "/doctor/dashboard" else "/patient/dashboard"
  }

  /** `onSuccess`: store the session, toast, then navigate. */
  function OnSuccess(response: ApiResponse<AuthPayload>): (effects: seq<Effect>)
    ensures |effects| == 3 && effects[1] == Toast(Success, "Login successful!")
    ensures Pushes(effects) == [RedirectPath(response.data.user)]
    ensures Precedes(effects, SessionLogin(response.data.user, response.data.token), Push(RedirectPath(response.data.user)))
  {
    var user, token := response.data.user, response.data.token;
    var effects := [SessionLogin(user, token), Toast(Success, "Login successful!"), Push(RedirectPath(user))];
    assert effects[0] == SessionLogin(user, token) && effects[2] == Push(RedirectPath(user));
    assert effects[1..][1..][1..] == [];
    effects
  }

  /** `onError`: the backend message if there is one, else 'Login failed'. */
  function OnError(message: Option<string>): (e: Effect)
    ensures e.Toast? && e.kind == Error
    ensures message.Some? && message.value != "" ==> e.message == message.value
    ensures message.None? || message.value == "" ==> e.message == "Login failed"
  {
    Toast(Error, OrElse(message, "Login failed"))
  }

  /** The form's local state: the password visibility toggle and the selected role. */
  class View {
    var showPassword: bool
    var role: Role

    constructor ()
      ensures !showPassword && role == DefaultRole
    {
      showPassword := false;
      role := DefaultRole;
    }

    method TogglePassword()
      modifies this
      ensures showPassword == !old(showPassword) && role == old(role)
    {
      showPassword := !showPassword;
    }

    /** One of the two role radio buttons. */
    method SelectRole(r: Role)
      modifies this
      ensures role == r && showPassword == old(showPassword)
    {
      role := r;
    }

    /** The password field's input type. */
    function PasswordInputType(): (t: string)
      reads this
      ensures t == "text" <==> showPassword
    {
      if showPassword then "text" else "password"
    }
  }
}
