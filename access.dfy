/**
 * Who the caller is and what they may do. Bearer tokens are resolved by the
 * identity provider, outside this model: a handler receives the resolved
 * user, or `None` when the token was missing or rejected. Roles come from
 * the caller's profile record `user:{id}` in the store, never from the
 * token's metadata.
 */
module Access {
  import opened Values
  import opened KvStore
  import opened Keys

  /** What the identity provider returns for a valid token: the user's id,
      e-mail and the `name`/`role` metadata given at sign-up. */
  datatype AuthUser = AuthUser(id: string, email: Option<Value>, metaName: Option<Value>, metaRole: Option<Value>)

  /** A handler's answer: a 200 response with a body, or an error status with
      its `{ error }` message. */
  datatype Reply<T> = Ok(body: T) | Fail(status: int, error: string)

  /** The guard `error || !user?.id` of the authenticated routes, negated. */
  predicate Authenticated(caller: Option<AuthUser>): (b: bool)
    ensures b <==> caller.Some? && Truthy(Some(Str(caller.value.id)))
  {
    caller.Some? && caller.value.id != ""
  }

  /** `kv.get("user:" + id)`. */
  function ProfileOf(d: Db, id: string): (p: Option<Record>)
    ensures p.Some? <==> UserKey(id) in d
    ensures p.Some? ==> p.value == d[UserKey(id)]
  {
    if UserKey(id) in d then Some(d[UserKey(id)]) else None
  }

  /** A profile whose role is `instructor` or `admin`. */
  predicate StaffProfile(p: Option<Record>): (b: bool)
    ensures AdminProfile(p) ==> b
  {
    p.Some? && (Field(p.value, "role") == Some(Str("instructor")) || Field(p.value, "role") == Some(Str("admin")))
  }

  /** A profile whose role is `admin`. */
  predicate AdminProfile(p: Option<Record>): (b: bool)
    ensures b ==> p.Some? && ValidRole(Field(p.value, "role"))
  {
    p.Some? && Field(p.value, "role") == Some(Str("admin"))
  }

  /** May create courses, materials and assessments, post grades and read
      course reports. */
  predicate IsStaff(d: Db, id: string)
  {
    StaffProfile(ProfileOf(d, id))
  }

  /** May verify and revoke grades. */
  predicate IsAdmin(d: Db, id: string)
  {
    AdminProfile(ProfileOf(d, id))
  }

  /** Every admin passes the staff gate; instructors pass it but not the
      admin gate. */
  lemma AdminIsStaff(d: Db, id: string)
    ensures IsAdmin(d, id) ==> IsStaff(d, id)
    ensures UserKey(id) in d && Field(d[UserKey(id)], "role") == Some(Str("instructor")) ==> IsStaff(d, id) && !IsAdmin(d, id)
  {
  }

  /** The roles a user may sign up with. */
  predicate ValidRole(role: Option<Value>): (b: bool)
    ensures b ==> Truthy(role)
  {
    role == Some(Str("student")) || role == Some(Str("instructor")) || role == Some(Str("admin"))
  }

  /** `GET /auth/profile`: 401 without a bearer token or with one the
      identity provider rejects; otherwise the stored profile, or, when there
      is none, one built from the token's metadata with `''` for a missing
      name and the role `student` for a missing role. Unlike the other
      routes, a user with an empty id is not turned away. */
  function Profile(d: Db, hasToken: bool, caller: Option<AuthUser>): (r: Reply<Record>)
    ensures !hasToken ==> r == Fail(401, "No authorization token")
    ensures hasToken && caller.None? ==> r == Fail(401, "Unauthorized")
    ensures r.Ok? <==> hasToken && caller.Some?
    ensures r.Ok? && UserKey(caller.value.id) in d ==> r.body == d[UserKey(caller.value.id)]
    ensures r.Ok? && UserKey(caller.value.id) !in d ==>
      && Field(r.body, "id") == Some(Str(caller.value.id))
      && Field(r.body, "email") == caller.value.email
      && Field(r.body, "name") == (if Truthy(caller.value.metaName) then caller.value.metaName else Some(Str("")))
      && Field(r.body, "role") == (if Truthy(caller.value.metaRole) then caller.value.metaRole else Some(Str("student")))
  {
    if !hasToken then Fail(401, "No authorization token")
    else if caller.None? then Fail(401, "Unauthorized")
    else
      var user := caller.value;
      match ProfileOf(d, user.id)
      case Some(profile) => Ok(profile)
      case None =>
        var name := if Truthy(user.metaName) then user.metaName.value else Str("");
        var role := if Truthy(user.metaRole) then user.metaRole.value else Str("student");
        Ok(With(map["id" := Str(user.id), "name" := name, "role" := role], "email", user.email))
  }

  /** The fallback profile is only reported: the permission gates read the
      stored profile, so a user without one is refused whatever role the
      token's metadata names. */
  lemma FallbackGrantsNothing(d: Db, caller: Option<AuthUser>)
    requires caller.Some? && UserKey(caller.value.id) !in d
    ensures Profile(d, true, caller).Ok?
    ensures Truthy(caller.value.metaRole) ==> Field(Profile(d, true, caller).body, "role") == caller.value.metaRole
    ensures !IsStaff(d, caller.value.id) && !IsAdmin(d, caller.value.id)
  {
  }
}
