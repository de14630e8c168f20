/** The closed role set and the role → capability matrix. */
module Auth {
  import opened Common

  datatype Role = Admin | Editor | Viewer | Pending

  /** The ten named capabilities of a permission record. */
  datatype Capability =
    | ViewDashboard | ViewUsers | ViewMessages | ViewAnalytics | ViewConsultations
    | ViewLogs | SendBroadcast | EditConfig | ManageUsers | DeleteData

  /** A permission record: one flag per capability, so none can be missing. */
  datatype RolePermissions = RolePermissions(
    canViewDashboard: bool,
    canViewUsers: bool,
    canViewMessages: bool,
    canViewAnalytics: bool,
    canViewConsultations: bool,
    canViewLogs: bool,
    canSendBroadcast: bool,
    canEditConfig: bool,
    canManageUsers: bool,
    canDeleteData: bool)

  /** `permissions[capability]`. */
  function Grants(p: RolePermissions, c: Capability): bool
  {
    match c
    case ViewDashboard => p.canViewDashboard
    case ViewUsers => p.canViewUsers
    case ViewMessages => p.canViewMessages
    case ViewAnalytics => p.canViewAnalytics
    case ViewConsultations => p.canViewConsultations
    case ViewLogs => p.canViewLogs
    case SendBroadcast => p.canSendBroadcast
    case EditConfig => p.canEditConfig
    case ManageUsers => p.canManageUsers
    case DeleteData => p.canDeleteData
  }

  /** The name a role is stored under. */
  function RoleName(r: Role): string
  {
    match r
    case Admin => "admin"
    case Editor => "editor"
    case Viewer => "viewer"
    case Pending => "pending"
  }

  /** The role a stored name denotes; names outside the closed set denote none. */
  function ParseRole(s: string): (r: Option<Role>)
    ensures r.Some? <==> s in {"admin", "editor", "viewer", "pending"}
    ensures r.Some? ==> RoleName(r.value) == s
  {
    if s == "admin" then Some(Admin)
    else if s == "editor" then Some(Editor)
    else if s == "viewer" then Some(Viewer)
    else if s == "pending" then Some(Pending)
    else None
  }

  lemma RoleNameRoundTrip(r: Role)
    ensures ParseRole(RoleName(r)) == Some(r)
  {
  }

  /** `ROLE_PERMISSIONS[role]`. */
  function Permissions(r: Role): (p: RolePermissions)
    ensures r == Admin ==> forall c :: Grants(p, c)
    ensures r == Pending ==> forall c :: !Grants(p, c)
    ensures Grants(p, ViewDashboard) <==> r != Pending
    ensures (Grants(p, ViewLogs) || Grants(p, EditConfig) || Grants(p, ManageUsers) || Grants(p, DeleteData))
            ==> r == Admin
  {
    match r
    case Admin => RolePermissions(true, true, true, true, true, true, true, true, true, true)
    case Editor => RolePermissions(true, true, true, true, true, false, true, false, false, false)
    case Viewer => RolePermissions(true, false, true, true, true, false, false, false, false, false)
    case Pending => RolePermissions(false, false, false, false, false, false, false, false, false, false)
  }

  /** Each capability of viewer is one of editor, and each of editor one of admin. */
  lemma Monotone(c: Capability)
    ensures Grants(Permissions(Viewer), c) ==> Grants(Permissions(Editor), c)
    ensures Grants(Permissions(Editor), c) ==> Grants(Permissions(Admin), c)
  {
  }

  /** The admin-only capabilities are granted to admin alone. */
  lemma AdminOnly(r: Role)
    ensures Grants(Permissions(r), ViewLogs) <==> r == Admin
    ensures Grants(Permissions(r), EditConfig) <==> r == Admin
    ensures Grants(Permissions(r), ManageUsers) <==> r == Admin
    ensures Grants(Permissions(r), DeleteData) <==> r == Admin
  {
  }

  /** Editor and viewer differ in exactly two capabilities. */
  lemma EditorViewerDiffer(c: Capability)
    ensures (Grants(Permissions(Editor), c) != Grants(Permissions(Viewer), c))
            <==> (c == ViewUsers || c == SendBroadcast)
  {
  }
}
