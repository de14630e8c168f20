/**
 * The route guard wrapped around every dashboard page, and the pending-approval page's
 * own redirect. Both read the session (`loading`, `user`, `isApproved()`) and the current
 * path; a redirect is the path handed to the router.
 */
module RouteGate {
  import opened Common
  import opened AuthContext

  const PendingPath := "/pending-approval"

  /** What the guard draws. */
  datatype View = LoadingScreen | Nothing | Children

  /** The guard's effect: the first rule that applies issues its one redirect. */
  function Redirect(loading: bool, user: Option<string>, profile: Option<UserProfile>, path: string)
    : (r: Option<string>)
    ensures loading ==> r.None?
    ensures !loading && user.None? ==> r == Some("/login")
    ensures r == Some(PendingPath) <==>
              !loading && user.Some? && !IsApproved(profile) && path != PendingPath
    ensures r == Some("/") <==> !loading && user.Some? && IsApproved(profile) && path == PendingPath
    ensures r.Some? ==> r.value in {"/login", PendingPath, "/"}
  {
    if loading then None
    else if user.None? then Some("/login")
    else if !IsApproved(profile) && path != PendingPath then Some(PendingPath)
    else if IsApproved(profile) && path == PendingPath then Some("/")
    else None
  }

  /** The guard's render decision. */
  function Render(loading: bool, user: Option<string>, profile: Option<UserProfile>, path: string)
    : (v: View)
    ensures v == LoadingScreen <==> loading
    ensures v == Children <==> !loading && user.Some? && (IsApproved(profile) || path == PendingPath)
  {
    if loading then LoadingScreen
    else if user.None? then Nothing
    else if !IsApproved(profile) && path != PendingPath then Nothing
    else Children
  }

  /** A signed-in user who follows the guard's redirect is not redirected again. */
  lemma RedirectSettles(user: Option<string>, profile: Option<UserProfile>, path: string)
    requires user.Some?
    requires Redirect(false, user, profile, path).Some?
    ensures Redirect(false, user, profile, Redirect(false, user, profile, path).value).None?
  {
  }

  /** An approved user on any path but the pending page sees the page and stays put. */
  lemma ApprovedPassesThrough(user: Option<string>, profile: Option<UserProfile>, path: string)
    requires user.Some? && IsApproved(profile) && path != PendingPath
    ensures Redirect(false, user, profile, path).None?
    ensures Render(false, user, profile, path) == Children
  {
  }

  /**
   * Children are drawn while a redirect is pending only for an approved user on the
   * pending page; in every other case drawing children means staying.
   */
  lemma ChildrenWithRedirect(loading: bool, user: Option<string>, profile: Option<UserProfile>, path: string)
    ensures (Render(loading, user, profile, path) == Children && Redirect(loading, user, profile, path).Some?)
            <==> (!loading && user.Some? && IsApproved(profile) && path == PendingPath)
  {
  }

  /** What the pending-approval page draws. */
  datatype PendingView = Spinner | Card

  /** The pending-approval page's redirect. */
  function PendingRedirect(loading: bool, user: Option<string>, profile: Option<UserProfile>)
    : (r: Option<string>)
    ensures loading ==> r.None?
    ensures !loading && user.None? ==> r == Some("/login")
    ensures !loading && user.Some? && IsApproved(profile) ==> r == Some("/")
    ensures r.None? <==> loading || (user.Some? && !IsApproved(profile))
  {
    if loading then None
    else if user.None? then Some("/login")
    else if IsApproved(profile) then Some("/")
    else None
  }

  function PendingRender(loading: bool): (v: PendingView)
    ensures v == Spinner <==> loading
  {
    if loading then Spinner else Card
  }

  /** The page's own rule agrees with the guard's rules for the page's path. */
  lemma PendingAgreesWithGate(loading: bool, user: Option<string>, profile: Option<UserProfile>)
    ensures PendingRedirect(loading, user, profile) == Redirect(loading, user, profile, PendingPath)
  {
  }
}
