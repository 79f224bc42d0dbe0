/** The side effects the components' handlers run, recorded in order as data:
    the auth store's login and logout, toasts, router navigation, query
    invalidation, mutations sent, and the booking form's reset and close. */
module Effects {
  import opened Types
  import Api

  datatype ToastKind = Success | Error

  datatype Effect =
    | SessionLogin(user: User, token: string)
    | SessionLogout
    | Toast(kind: ToastKind, message: string)
    | Push(path: string)
    | Invalidate(queryKey: string)
    | Send(request: Api.Request)
    | ResetForm
    | CloseModal

  /** Effect `a` happens strictly before effect `b`. */
  ghost predicate Precedes(effects: seq<Effect>, a: Effect, b: Effect)
  {
    exists i, j :: 0 <= i < j < |effects| && effects[i] == a && effects[j] == b
  }

  /** The paths navigated to, in order. */
  function Pushes(effects: seq<Effect>): (paths: seq<string>)
    ensures |paths| <= |effects|
    ensures forall p :: p in paths <==> Push(p) in effects
  {
    if effects == [] then []
    else (if effects[0].Push? then [effects[0].path] else []) + Pushes(effects[1..])
  }
}
