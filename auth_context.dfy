/**
 * The identity resolver: on each authentication change it builds the signed-in
 * user's record from the session and the optional profile document, with the
 * role normalised against the three known roles; it also exposes `loading` and
 * `logout`.
 */
module AuthContext {
  import opened Wrappers
  import opened Text

  datatype Role = Individual | Organization | Ngo

  /** The lower-case spelling of a role, as stored and compared throughout the pages. */
  function RoleName(r: Role): string
  {
    match r
    case Individual => "individual"
    case Organization => "organization"
    case Ngo => "ngo"
  }

  /** A field of a profile document: missing, a string, or a value of some other type. */
  datatype Field = Missing | Str(s: string) | NotString

  /** The role shown to the pages: the lower-cased string when it names a role, otherwise none. */
  function NormaliseRole(raw: Field): Option<Role>
  {
    if !raw.Str? then None
    else
      var lower := ToLower(raw.s);
      if lower == RoleName(Individual) then Some(Individual)
      else if lower == RoleName(Organization) then Some(Organization)
      else if lower == RoleName(Ngo) then Some(Ngo)
      else None
  }

  /** A role results exactly when the field is a string whose lower-case form is that role's name. */
  lemma NormaliseRoleExactly(raw: Field, r: Role)
    ensures NormaliseRole(raw) == Some(r) <==> raw.Str? && ToLower(raw.s) == RoleName(r)
  {
  }

  /** Normalisation ignores case. */
  lemma NormaliseRoleIgnoresCase(s: string, t: string)
    requires ToLower(s) == ToLower(t)
    ensures NormaliseRole(Str(s)) == NormaliseRole(Str(t))
  {
  }

  /** Every role's stored name normalises back to that role, so normalising again changes nothing. */
  lemma NormaliseRoleIdempotent(raw: Field)
    ensures NormaliseRole(raw).Some? ==> NormaliseRole(Str(RoleName(NormaliseRole(raw).value))) == NormaliseRole(raw)
    ensures forall r: Role :: NormaliseRole(Str(RoleName(r))) == Some(r)
  {
    assert ToLower("individual") == "individual";
    assert ToLower("organization") == "organization";
    assert ToLower("ngo") == "ngo";
  }

  /** The three values the sign-up form stores map to the three roles. */
  lemma SignUpValuesNormalise()
    ensures NormaliseRole(Str("Individual")) == Some(Individual)
    ensures NormaliseRole(Str("Organization")) == Some(Organization)
    ensures NormaliseRole(Str("NGO")) == Some(Ngo)
  {
    assert ToLower("Individual") == "individual";
    assert ToLower("Organization") == "organization";
    assert ToLower("NGO") == "ngo";
  }

  /** The user record the pages see. */
  datatype UserData = UserData(uid: string, email: string, name: Option<string>, role: Option<Role>)

  /** The authenticated session: its user id and, possibly, an email. */
  datatype Session = Session(uid: string, email: Option<string>)

  /** The fields of a "users" profile document that the resolver reads. */
  datatype ProfileDoc = ProfileDoc(name: Field, role: Field)

  /** The answer of the profile fetch: the document if it exists, or a failure (the fetch threw). */
  datatype ProfileFetch = Fetched(profile: Option<ProfileDoc>) | FetchFailed

  /** The record built for a signed-in session from its profile document, if one exists. */
  function UserFor(session: Session, profile: Option<ProfileDoc>): (u: UserData)
    ensures u.uid == session.uid
    ensures u.email == session.email.GetOr("")
    ensures profile.None? ==> u.name.None? && u.role.None?
    ensures profile.Some? ==> u.role == NormaliseRole(profile.value.role)
    ensures profile.Some? ==> (u.name.Some? <==> profile.value.name.Str?)
    ensures u.name.Some? ==> profile.Some? && profile.value.name == Str(u.name.value)
  {
    match profile
    case None => UserData(session.uid, session.email.GetOr(""), None, None)
    case Some(p) =>
      UserData(session.uid, session.email.GetOr(""), if p.name.Str? then Some(p.name.s) else None, NormaliseRole(p.role))
  }

  /** The provider's state: the current user and whether the first resolution is still pending. */
  class AuthProvider {
    var user: Option<UserData>
    var loading: bool

    constructor ()
      ensures user == None && loading
    {
      user := None;
      loading := true;
    }

    /**
     * The authentication-change callback. `loading` is cleared on every path,
     * also when the profile fetch throws (the user is then left as it was).
     */
    method OnAuthStateChanged(session: Option<Session>, fetch: ProfileFetch)
      modifies this
      ensures !loading
      ensures session.None? ==> user == None
      ensures session.Some? && fetch.Fetched? ==> user == Some(UserFor(session.value, fetch.profile))
      ensures session.Some? && fetch.FetchFailed? ==> user == old(user)
    {
      if session.None? {
        user := None;
      } else if fetch.Fetched? {
        user := Some(UserFor(session.value, fetch.profile));
      }
      loading := false;
    }

    /**
     * Signs out, then clears the user and sends the browser to "/landing".
     * When sign-out throws, nothing after it runs. `loading` is never set again.
     */
    method Logout(signedOut: bool) returns (route: Option<string>)
      modifies this
      ensures loading == old(loading)
      ensures user == if signedOut then None else old(user)
      ensures route == if signedOut then Some("/landing") else None
    {
      route := None;
      if signedOut {
        user := None;
        route := Some("/landing");
      }
    }
  }
}
