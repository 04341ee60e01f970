/**
 * The dual-mode authorization middleware in front of `/trascrivi`
 * (`getClientPrincipal` and `requirePwaAccessGroup`). Outside local mode the
 * identity comes from the `x-ms-client-principal` header that Azure EasyAuth
 * sets: base64 of a JSON document with a `claims` list. Base64 and JSON
 * decoding are opaque here: the caller supplies them as `decode`.
 */
module Auth {
  import opened Wrappers
  import opened Claims

  /** The Entra group whose members may use the service. */
  const RequiredGroup: string := "03e6e95e-d8c2-4b4f-9506-7f87c2298935"
  /** The only group of the simulated local user. */
  const LocalGroup: string := "LOCAL-DEVELOPER"
  const Unauthenticated: string := "Utente non autenticato (manca X-MS-CLIENT-PRINCIPAL in Azure)"
  const Forbidden: string := "Accesso negato: utente non appartiene al gruppo autorizzato"

  /** The environment variables the gate reads; None is an unset variable. */
  datatype Env = Env(appEnv: Option<string>, devUserName: Option<string>, devUserEmail: Option<string>)

  /** `process.env.X || fallback`: an unset or empty variable gives the fallback. */
  function EnvOr(v: Option<string>, fallback: string): (r: string)
    ensures v.Some? && v.value != "" ==> r == v.value
    ensures v.None? || v.value == "" ==> r == fallback
  {
    if v.Some? && v.value != "" then v.value else fallback
  }

  /** `APP_ENV === "local"` where `APP_ENV = process.env.APP_ENV || "local"`. */
  predicate IsLocal(env: Env) {
    EnvOr(env.appEnv, "local") == "local"
  }

  /**
   * The value `JSON.parse` produced: a falsy one (null, false, 0, "") or a
   * truthy one, whose `claims` field is None when it is absent or falsy.
   */
  datatype Principal = Falsy | Truthy(claims: Option<seq<Claim>>)

  /** The outcome of base64 followed by `JSON.parse`: it throws, or yields a value. */
  datatype Decoded = DecodeError | Decoded(principal: Principal)

  /** The user the gate attaches to the request; None is JavaScript's null. */
  datatype User = User(name: Option<string>, email: Option<string>, groups: seq<string>)

  /** The gate calls `next` with a user, or answers with a status and a text. */
  datatype Decision = Next(user: User) | Deny(status: int, message: string)

  /** `getClientPrincipal`: None stands for the `null` it returns. */
  function ClientPrincipal(header: Option<string>, decode: string -> Decoded): (r: Option<Principal>)
    ensures header.None? || header.value == "" ==> r.None?
    ensures header.Some? && header.value != "" && decode(header.value).DecodeError? ==> r.None?
    ensures r.Some? ==> header.Some? && decode(header.value) == Decoded(r.value)
    ensures header.Some? && header.value != "" && decode(header.value).Decoded?
            ==> r == Some(decode(header.value).principal)
  {
    if header.None? || header.value == "" then None
    else match decode(header.value)
      case DecodeError => None
      case Decoded(p) => Some(p)
  }

  /** `!principal` is false: a principal was decoded and it is truthy. */
  predicate Authenticated(p: Option<Principal>) {
    p.Some? && p.value.Truthy?
  }

  /** `principal.claims || []`. */
  function ClaimsOf(p: Principal): seq<Claim> {
    match p
    case Falsy => []
    case Truthy(claims) => claims.GetOr([])
  }

  /** The simulated user of local mode. */
  function DevUser(env: Env): (u: User)
    ensures u.groups == [LocalGroup] && u.name.Some? && u.email.Some?
  {
    User(Some(EnvOr(env.devUserName, "Dev User")), Some(EnvOr(env.devUserEmail, "dev@example.com")), [LocalGroup])
  }

  /** `requirePwaAccessGroup`. */
  function RequirePwaAccessGroup(env: Env, header: Option<string>, decode: string -> Decoded): (r: Decision)
    // local mode always lets the request through with the simulated user
    ensures IsLocal(env) ==> r == Next(DevUser(env))
    // Azure mode: no principal, or a falsy one, is unauthenticated
    ensures !IsLocal(env) && !Authenticated(ClientPrincipal(header, decode)) ==> r == Deny(401, Unauthenticated)
    // Azure mode: access iff some "groups" claim carries the required group, otherwise 403
    ensures !IsLocal(env) && Authenticated(ClientPrincipal(header, decode)) ==>
      var claims := ClaimsOf(ClientPrincipal(header, decode).value);
      && (r.Next? <==> exists i :: 0 <= i < |claims| && claims[i] == Claim("groups", RequiredGroup))
      && (r.Deny? ==> r == Deny(403, Forbidden))
      && (r.Next? ==> r.user.groups == Vals(claims, "groups") && RequiredGroup in r.user.groups)
      && (r.Next? ==> r.user.name == FirstVal(claims, "name"))
      && (r.Next? ==> r.user.email == if FirstVal(claims, "preferred_username").Some?
                                      then FirstVal(claims, "preferred_username")
                                      else FirstVal(claims, "emails"))
  {
    if IsLocal(env) then Next(DevUser(env))
    else
      var principal := ClientPrincipal(header, decode);
      if !Authenticated(principal) then Deny(401, Unauthenticated)
      else
        var claims := ClaimsOf(principal.value);
        var groups := Vals(claims, "groups");
        InVals(claims, "groups", RequiredGroup);
        if RequiredGroup !in groups then Deny(403, Forbidden)
        else
          var email := match FirstVal(claims, "preferred_username")
            case Some(e) => Some(e)
            case None => FirstVal(claims, "emails");
          Next(User(FirstVal(claims, "name"), email, groups))
  }
}
