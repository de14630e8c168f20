/**
 * The authentication context: the session cell (`user`, `userProfile`, `permissions`,
 * `loading`) and the operations that update it. The identity provider, the profile
 * store and the router are outside: each provider call arrives as an outcome
 * parameter, the `user_profiles` collection is the `profiles` map, and a navigation is
 * returned as the path pushed.
 */
module AuthContext {
  import opened Common
  import opened Auth

  /**
   * A `user_profiles` document as stored: any field may be missing. Times are epoch ms.
   * `updatedAt` and `updatedBy` are the audit fields the user-management page writes.
   */
  datatype StoredProfile = StoredProfile(
    uid: Option<string>,
    email: Option<string>,
    displayName: Option<string>,
    role: Option<string>,
    approved: Option<bool>,
    createdAt: Option<int>,
    lastLogin: Option<int>,
    approvedBy: Option<string>,
    approvedAt: Option<int>,
    updatedAt: Option<int>,
    updatedBy: Option<string>)

  /** The profile held in the session. `role` keeps whatever string was stored. */
  datatype UserProfile = UserProfile(
    uid: Option<string>,
    email: Option<string>,
    displayName: Option<string>,
    role: string,
    approved: bool,
    createdAt: int,
    lastLogin: Option<int>,
    approvedBy: Option<string>,
    approvedAt: Option<int>)

  /** A sign-in or account creation: the new session's uid, or the provider's error text. */
  datatype Credential = Signed(uid: string) | Refused(message: string)

  /** How an operation ends: a navigation to `path`, or an `Error` thrown with `message`. */
  datatype Outcome = Navigated(path: string) | Thrown(message: string)

  /** `error.message || fallback`. */
  function ErrorText(message: string, fallback: string): (r: string)
    ensures message != "" ==> r == message
    ensures message == "" ==> r == fallback
  {
    if message != "" then message else fallback
  }

  /** The session profile built from a stored document; `now` stands for `new Date()`. */
  function DecodeProfile(d: StoredProfile, now: int): (p: UserProfile)
    ensures d.role.None? || d.role == Some("") ==> p.role == "pending"
    ensures d.role.Some? && d.role.value != "" ==> p.role == d.role.value
    ensures p.approved <==> d.approved == Some(true)
    ensures d.createdAt.None? ==> p.createdAt == now
    ensures (p.uid, p.email, p.displayName) == (d.uid, d.email, d.displayName)
  {
    UserProfile(
      d.uid, d.email, d.displayName,
      if d.role.Some? && d.role.value != "" then d.role.value else "pending",
      d.approved.GetOr(false),
      d.createdAt.GetOr(now),
      d.lastLogin, d.approvedBy, d.approvedAt)
  }

  /** `ROLE_PERMISSIONS[role]`: a stored role outside the closed set indexes nothing. */
  function PermissionsFor(role: string): (r: Option<RolePermissions>)
    ensures r.Some? <==> role in {"admin", "editor", "viewer", "pending"}
    ensures r.Some? ==> r.value == Permissions(ParseRole(role).value)
  {
    match ParseRole(role)
    case Some(x) => Some(Permissions(x))
    case None => None
  }

  /** `hasPermission`: false while no permission record is loaded. */
  function HasPermission(permissions: Option<RolePermissions>, c: Capability): (b: bool)
    ensures permissions.None? ==> !b
    ensures permissions.Some? ==> b == Grants(permissions.value, c)
  {
    permissions.Some? && Grants(permissions.value, c)
  }

  /** `isAdmin`: the profile's role is admin and it is approved. */
  function IsAdmin(profile: Option<UserProfile>): (b: bool)
    ensures b <==> profile.Some? && profile.value.role == "admin" && profile.value.approved
  {
    match profile
    case Some(p) => p.role == "admin" && p.approved
    case None => false
  }

  /** `isApproved`: a profile is loaded and it is approved. */
  function IsApproved(profile: Option<UserProfile>): (b: bool)
    ensures b <==> profile.Some? && profile.value.approved
  {
    match profile
    case Some(p) => p.approved
    case None => false
  }

  /** Only a role of the closed set other than pending grants anything. */
  lemma GrantingRoles(role: string, c: Capability)
    requires HasPermission(PermissionsFor(role), c)
    ensures role in {"admin", "editor", "viewer"}
  {
  }

  /**
   * `hasPermission` does not look at approval: a stored admin document that was never
   * approved grants every capability while `isAdmin` is false.
   */
  lemma HasPermissionIgnoresApproval(d: StoredProfile, now: int, c: Capability)
    requires d.role == Some("admin") && d.approved != Some(true)
    ensures HasPermission(PermissionsFor(DecodeProfile(d, now).role), c)
    ensures !IsAdmin(Some(DecodeProfile(d, now)))
    ensures !IsApproved(Some(DecodeProfile(d, now)))
  {
  }

  /** The document `signup` writes for a new account. */
  function SignupDocument(uid: string, email: string, displayName: string, now: int): (d: StoredProfile)
    ensures d.role == Some("pending") && d.approved == Some(false)
  {
    StoredProfile(Some(uid), Some(email), Some(displayName), Some("pending"), Some(false),
                  Some(now), Some(now), None, None, None, None)
  }

  /** A freshly signed-up account is unapproved and holds no capability. */
  lemma SignupGrantsNothing(uid: string, email: string, displayName: string, now: int, later: int, c: Capability)
    ensures !IsApproved(Some(DecodeProfile(SignupDocument(uid, email, displayName, now), later)))
    ensures !HasPermission(PermissionsFor(DecodeProfile(SignupDocument(uid, email, displayName, now), later).role), c)
  {
  }

  class AuthProvider {
    /** The signed-in account's uid, if any. */
    var user: Option<string>
    var userProfile: Option<UserProfile>
    var permissions: Option<RolePermissions>
    var loading: bool
    /** The `user_profiles` collection, keyed by uid. */
    var profiles: map<string, StoredProfile>

    /** The permission record always belongs to the loaded profile's role. */
    ghost predicate Valid()
      reads this
    {
      match userProfile
      case None => permissions.None?
      case Some(p) => permissions == PermissionsFor(p.role)
    }

    constructor (store: map<string, StoredProfile>)
      ensures Valid()
      ensures user.None? && userProfile.None? && permissions.None? && loading
      ensures profiles == store
    {
      user := None;
      userProfile := None;
      permissions := None;
      loading := true;
      profiles := store;
    }

    /**
     * `fetchUserProfile`: read the document, load it, then stamp `lastLogin`. A missing
     * document, a failed read or a failed stamp leaves no profile and no permissions.
     */
    method FetchUserProfile(uid: string, read: Step, stamp: Step, now: int)
      modifies this
      ensures Valid()
      ensures user == old(user) && loading == old(loading)
      ensures read.Done? && uid in old(profiles) && stamp.Done? ==>
                && userProfile == Some(DecodeProfile(old(profiles)[uid], now))
                && profiles == old(profiles)[uid := old(profiles)[uid].(lastLogin := Some(now))]
      ensures !(read.Done? && uid in old(profiles) && stamp.Done?) ==>
                userProfile.None? && permissions.None? && profiles == old(profiles)
    {
      if read.Failed? || uid !in profiles {
        userProfile := None;
        permissions := None;
        return;
      }
      var profile := DecodeProfile(profiles[uid], now);
      userProfile := Some(profile);
      permissions := PermissionsFor(profile.role);
      if stamp.Done? {
        profiles := profiles[uid := profiles[uid].(lastLogin := Some(now))];
      } else {
        userProfile := None;
        permissions := None;
      }
    }

    /** The `onAuthStateChanged` callback; `loading` is false once it has run. */
    method OnAuthStateChanged(u: Option<string>, read: Step, stamp: Step, now: int)
      modifies this
      ensures Valid()
      ensures user == u && !loading
      ensures u.None? ==> userProfile.None? && permissions.None? && profiles == old(profiles)
      ensures u.Some? && read.Done? && u.value in old(profiles) && stamp.Done? ==>
                && userProfile == Some(DecodeProfile(old(profiles)[u.value], now))
                && profiles == old(profiles)[u.value := old(profiles)[u.value].(lastLogin := Some(now))]
      ensures u.Some? && !(read.Done? && u.value in old(profiles) && stamp.Done?) ==>
                userProfile.None? && permissions.None? && profiles == old(profiles)
    {
      user := u;
      if u.Some? {
        FetchUserProfile(u.value, read, stamp, now);
      } else {
        userProfile := None;
        permissions := None;
      }
      loading := false;
    }

    /** `login`: on success the session is the new account's and the app goes to `/`. */
    method Login(signIn: Credential, read: Step, stamp: Step, now: int) returns (o: Outcome)
      modifies this
      requires Valid()
      ensures Valid()
      ensures loading == old(loading)
      ensures signIn.Refused? ==>
                && o == Thrown(ErrorText(signIn.message, "Failed to login"))
                && user == old(user) && userProfile == old(userProfile)
                && permissions == old(permissions) && profiles == old(profiles)
      ensures signIn.Signed? ==> o == Navigated("/") && user == Some(signIn.uid)
      ensures signIn.Signed? && read.Done? && signIn.uid in old(profiles) && stamp.Done? ==>
                && userProfile == Some(DecodeProfile(old(profiles)[signIn.uid], now))
                && profiles == old(profiles)[signIn.uid := old(profiles)[signIn.uid].(lastLogin := Some(now))]
      ensures signIn.Signed? && !(read.Done? && signIn.uid in old(profiles) && stamp.Done?) ==>
                userProfile.None? && permissions.None? && profiles == old(profiles)
    {
      if signIn.Refused? {
        return Thrown(ErrorText(signIn.message, "Failed to login"));
      }
      user := Some(signIn.uid);
      FetchUserProfile(signIn.uid, read, stamp, now);
      o := Navigated("/");
    }

    /**
     * `signup`: create the account, set its display name, write a pending, unapproved
     * profile, then load it and go to `/pending-approval`. The first failing step throws.
     */
    method Signup(create: Credential, rename: Step, write: Step, email: string, displayName: string,
                  read: Step, stamp: Step, now: int) returns (o: Outcome)
      modifies this
      requires Valid()
      ensures Valid()
      ensures loading == old(loading)
      ensures create.Refused? ==> o == Thrown(ErrorText(create.message, "Failed to create account"))
      ensures create.Signed? && rename.Failed? ==> o == Thrown(ErrorText(rename.message, "Failed to create account"))
      ensures create.Signed? && rename.Done? && write.Failed? ==>
                o == Thrown(ErrorText(write.message, "Failed to create account"))
      ensures o.Thrown? ==>
                && user == old(user) && userProfile == old(userProfile)
                && permissions == old(permissions) && profiles == old(profiles)
      ensures create.Signed? && rename.Done? && write.Done? ==>
                && o == Navigated("/pending-approval")
                && user == Some(create.uid)
                && create.uid in profiles
                && profiles[create.uid].role == Some("pending")
                && profiles[create.uid].approved == Some(false)
      ensures create.Signed? && rename.Done? && write.Done? && read.Done? && stamp.Done? ==>
                && userProfile == Some(DecodeProfile(SignupDocument(create.uid, email, displayName, now), now))
                && profiles == old(profiles)[create.uid := SignupDocument(create.uid, email, displayName, now).(lastLogin := Some(now))]
      ensures create.Signed? && rename.Done? && write.Done? && !(read.Done? && stamp.Done?) ==>
                && userProfile.None? && permissions.None?
                && profiles == old(profiles)[create.uid := SignupDocument(create.uid, email, displayName, now)]
    {
      if create.Refused? {
        return Thrown(ErrorText(create.message, "Failed to create account"));
      }
      if rename.Failed? {
        return Thrown(ErrorText(rename.message, "Failed to create account"));
      }
      if write.Failed? {
        return Thrown(ErrorText(write.message, "Failed to create account"));
      }
      profiles := profiles[create.uid := SignupDocument(create.uid, email, displayName, now)];
      user := Some(create.uid);
      FetchUserProfile(create.uid, read, stamp, now);
      o := Navigated("/pending-approval");
    }

    /** `logout`: the session is cleared only once `signOut` succeeded. */
    method Logout(signOut: Step) returns (o: Outcome)
      modifies this
      requires Valid()
      ensures Valid()
      ensures loading == old(loading) && profiles == old(profiles)
      ensures signOut.Done? ==>
                o == Navigated("/login") && user.None? && userProfile.None? && permissions.None?
      ensures signOut.Failed? ==>
                && o == Thrown(ErrorText(signOut.message, "Failed to logout"))
                && user == old(user) && userProfile == old(userProfile) && permissions == old(permissions)
    {
      if signOut.Failed? {
        return Thrown(ErrorText(signOut.message, "Failed to logout"));
      }
      user := None;
      userProfile := None;
      permissions := None;
      o := Navigated("/login");
    }
  }
}
