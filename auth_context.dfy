/** The session provider: the signed-in account merged with its profile
    document, with defaults for missing fields, and the loading flag
    (src/context/AuthContext.jsx). The authentication service and the
    profile listener are event sources; their events are method calls. */
module Auth {
  import opened Seqs
  import opened Js

  /** The authentication account (the fields the pages read). */
  datatype Account = Account(uid: string, displayName: JsValue)

  /** A profile document's fields; an absent field is `Undefined`. */
  datatype ProfileDoc = ProfileDoc(role: JsValue, isVerifiedArtisan: JsValue, isAdmin: JsValue)

  /** What the profile listener delivers. */
  datatype ProfileEvent = Exists(profile: ProfileDoc) | Missing | ListenerError

  /** The user object the pages see: the account spread, then the three
      profile fields. */
  datatype AppUser = AppUser(uid: string, displayName: JsValue, role: JsValue,
                             isVerifiedArtisan: JsValue, isAdmin: JsValue)

  /** The user built from an account and a profile event: stored values by
      JavaScript truthiness, `null` for a falsy role, `false` for falsy
      flags; without a readable profile, role `null` and both flags false. */
  function DeriveUser(account: Account, event: ProfileEvent): (u: AppUser)
    ensures u.uid == account.uid && u.displayName == account.displayName
    ensures Truthy(u.role) <==> event.Exists? && Truthy(event.profile.role)
    ensures Truthy(u.isVerifiedArtisan) <==> event.Exists? && Truthy(event.profile.isVerifiedArtisan)
    ensures Truthy(u.isAdmin) <==> event.Exists? && Truthy(event.profile.isAdmin)
    ensures !Truthy(u.role) ==> u.role == Null
    ensures !Truthy(u.isVerifiedArtisan) ==> u.isVerifiedArtisan == Bool(false)
    ensures !Truthy(u.isAdmin) ==> u.isAdmin == Bool(false)
    ensures event.Exists? && Truthy(event.profile.role) ==> u.role == event.profile.role
    ensures event.Exists? && Truthy(event.profile.isVerifiedArtisan) ==>
      u.isVerifiedArtisan == event.profile.isVerifiedArtisan
    ensures event.Exists? && Truthy(event.profile.isAdmin) ==> u.isAdmin == event.profile.isAdmin
  {
    match event
    case Exists(p) =>
      AppUser(account.uid, account.displayName, Or(p.role, Null),
              Or(p.isVerifiedArtisan, Bool(false)), Or(p.isAdmin, Bool(false)))
    case _ =>
      AppUser(account.uid, account.displayName, Null, Bool(false), Bool(false))
  }

  /** The provider's state. */
  class AuthState {
    var user: Option<AppUser>
    var loading: bool

    constructor ()
      ensures user.None? && loading
    {
      user := None;
      loading := true;
    }

    /** An authentication change. Signing out clears the user and ends
        loading; signing in only subscribes to the profile, so nothing
        changes until the profile event arrives. */
    method OnAuthChanged(account: Option<Account>)
      modifies this
      ensures account.None? ==> user.None? && !loading
      ensures account.Some? ==> user == old(user) && loading == old(loading)
    {
      if account.None? {
        user := None;
        loading := false;
      }
    }

    /** A profile event for the signed-in account: every outcome, the
        listener error included, sets the user and ends loading. */
    method OnProfile(account: Account, event: ProfileEvent)
      modifies this
      ensures user == Some(DeriveUser(account, event))
      ensures !loading
    {
      user := Some(DeriveUser(account, event));
      loading := false;
    }
  }
}
