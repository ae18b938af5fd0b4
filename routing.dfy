/** The access rule of the route guard (frontend/src/components/ProtectedRoute.tsx). */
module Routing {
  import opened Wrappers

  datatype AuthUser = AuthUser(username: string, rol: string)

  /** What the guard renders. */
  datatype Vista = Cargando | RedirigirLogin | RedirigirInicio | Contenido

  const ADMINISTRADOR := "Administrador"

  /** `user?.rol`: absent (undefined) when there is no user. */
  function RolDe(user: Option<AuthUser>): Option<string> {
    match user
    case Some(u) => Some(u.rol)
    case None => None
  }

  /** Whether `requiredRole` imposes anything: an absent or empty role is falsy in
      JavaScript and so imposes nothing. */
  predicate ExigeRol(requiredRole: Option<string>) {
    requiredRole.Some? && requiredRole.value != ""
  }

  /** The users a route admits once authentication has settled: everybody when
      it asks for no role, otherwise holders of that role and administrators. */
  predicate Admite(user: Option<AuthUser>, requiredRole: Option<string>) {
    !ExigeRol(requiredRole)
    || (user.Some? && (user.value.rol == requiredRole.value || user.value.rol == ADMINISTRADOR))
  }

  /** The guarded returns, in source order. Each outcome is characterised as an
      if-and-only-if: loading wins over everything, an unauthenticated visitor goes
      to /login, an authenticated one the route does not admit goes to /, and the
      children are shown to exactly the authenticated users it admits; in
      particular to administrators everywhere, and to everybody on a route that
      asks for no role or for the empty one. */
  function Decidir(isLoading: bool, isAuthenticated: bool, user: Option<AuthUser>,
                   requiredRole: Option<string>): (v: Vista)
    ensures v == Cargando <==> isLoading
    ensures v == RedirigirLogin <==> !isLoading && !isAuthenticated
    ensures v == RedirigirInicio <==> !isLoading && isAuthenticated && !Admite(user, requiredRole)
    ensures v == Contenido <==> !isLoading && isAuthenticated && Admite(user, requiredRole)
    ensures !isLoading && isAuthenticated && user.Some? && user.value.rol == ADMINISTRADOR ==> v == Contenido
    ensures !isLoading && isAuthenticated && (requiredRole.None? || requiredRole == Some("")) ==> v == Contenido
  {
    if isLoading then Cargando
    else if !isAuthenticated then RedirigirLogin
    else if ExigeRol(requiredRole) && RolDe(user) != requiredRole && RolDe(user) != Some(ADMINISTRADOR)
    then RedirigirInicio
    else Contenido
  }
}
