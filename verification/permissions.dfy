/** Roles, the per-user permission flags with each role's defaults, and the
    one permission test every screen asks (`hasPermission` and its `can*`
    wrappers in `src/types/user.ts`). */
module Permissions {
  import opened Wrappers

  datatype Role = Admin | RegularUser | Viewer

  /** The role as it is stored: "admin", "user" or "viewer". */
  function RoleName(r: Role): string {
    match r
    case Admin => "admin"
    case RegularUser => "user"
    case Viewer => "viewer"
  }

  datatype Permission =
    | Gate | Garage | Camera | StopMode | ViewLogs | ManageUsers
    | RequireLocation | AllowGps | RequireLocationProximity

  /** A user's stored flags; a flag that is missing reads as not granted. */
  type Flags = map<Permission, bool>

  /** The parts of a user record the permission test reads: the role,
      whether an admin approved the account (missing reads as false) and the
      stored flags (which an old record may lack altogether). */
  datatype UserData = UserData(role: Role, approved: bool, permissions: Option<Flags>)

  /** The default flag of each permission for each role. */
  function DefaultPermission(role: Role, p: Permission): bool {
    match p
    case Gate => role != Viewer
    case Garage => role != Viewer
    case Camera => true
    case StopMode => role == Admin
    case ViewLogs => true
    case ManageUsers => role == Admin
    case RequireLocation => role == RegularUser
    case AllowGps => true
    case RequireLocationProximity => role == RegularUser
  }

  /** The full default flag record a new account of `role` receives. */
  function DefaultFlags(role: Role): Flags {
    map[Gate := DefaultPermission(role, Gate),
        Garage := DefaultPermission(role, Garage),
        Camera := DefaultPermission(role, Camera),
        StopMode := DefaultPermission(role, StopMode),
        ViewLogs := DefaultPermission(role, ViewLogs),
        ManageUsers := DefaultPermission(role, ManageUsers),
        RequireLocation := DefaultPermission(role, RequireLocation),
        AllowGps := DefaultPermission(role, AllowGps),
        RequireLocationProximity := DefaultPermission(role, RequireLocationProximity)]
  }

  /** Whether the stored flags grant `p`: only an explicit true does. */
  predicate FlagGranted(flags: Option<Flags>, p: Permission) {
    flags.Some? && p in flags.value && flags.value[p]
  }

  /** The permission test: nobody logged in has nothing; managing users
      needs an approved admin whatever the flags say; an unapproved account
      has nothing else either; an approved admin has everything; any other
      approved account has what its flags grant. */
  function HasPermission(user: Option<UserData>, p: Permission): bool {
    match user
    case None => false
    case Some(u) =>
      if p == ManageUsers then u.role == Admin && u.approved
      else if !u.approved then false
      else if u.role == Admin then true
      else FlagGranted(u.permissions, p)
  }

  function CanManageUsers(user: Option<UserData>): bool { HasPermission(user, ManageUsers) }
  function CanControlGate(user: Option<UserData>): bool { HasPermission(user, Gate) }
  function CanControlGarage(user: Option<UserData>): bool { HasPermission(user, Garage) }
  function CanUseStopMode(user: Option<UserData>): bool { HasPermission(user, StopMode) }

  /** The test's cases, as an if-and-only-if for each kind of account. */
  lemma PermissionCases(user: Option<UserData>, p: Permission)
    ensures user.None? ==> !HasPermission(user, p)
    ensures user.Some? && p == ManageUsers
        ==> (HasPermission(user, p) <==> user.value.role == Admin && user.value.approved)
    ensures user.Some? && p != ManageUsers && !user.value.approved ==> !HasPermission(user, p)
    ensures user.Some? && p != ManageUsers && user.value.approved && user.value.role == Admin
        ==> HasPermission(user, p)
    ensures user.Some? && p != ManageUsers && user.value.approved && user.value.role != Admin
        ==> (HasPermission(user, p) <==> FlagGranted(user.value.permissions, p))
  {
  }

  /** Managing users never depends on the stored flags: two accounts with
      the same role and approval agree on it whatever their flags. */
  lemma ManageUsersIgnoresFlags(role: Role, approved: bool, f: Option<Flags>, g: Option<Flags>)
    ensures HasPermission(Some(UserData(role, approved, f)), ManageUsers)
        == HasPermission(Some(UserData(role, approved, g)), ManageUsers)
  {
  }

  /** The default record holds every permission, set as the table says. */
  lemma DefaultFlagsLookup(role: Role, p: Permission)
    ensures p in DefaultFlags(role) && DefaultFlags(role)[p] == DefaultPermission(role, p)
  {
    match p
    case Gate =>
    case Garage =>
    case Camera =>
    case StopMode =>
    case ViewLogs =>
    case ManageUsers =>
    case RequireLocation =>
    case AllowGps =>
    case RequireLocationProximity =>
  }

  /** For an approved user or viewer still holding the role's default flags,
      the test answers exactly the default table. */
  lemma DefaultsDecide(role: Role, p: Permission)
    requires role != Admin
    ensures HasPermission(Some(UserData(role, true, Some(DefaultFlags(role)))), p) == DefaultPermission(role, p)
  {
    DefaultFlagsLookup(role, p);
  }

  /** An approved admin passes every test, including the two its own default
      record sets to false: the role check comes before the flags. */
  lemma AdminOverridesDefaults(flags: Option<Flags>, p: Permission)
    ensures HasPermission(Some(UserData(Admin, true, flags)), p)
    ensures HasPermission(Some(UserData(Admin, true, Some(DefaultFlags(Admin)))), RequireLocation)
        && !DefaultPermission(Admin, RequireLocation)
  {
  }

  /** The default table's distinctions: a viewer may not drive the gate,
      the garage or stop mode, nor manage users; a user may not use stop
      mode nor manage users; an admin is not asked for its location. */
  lemma DefaultTableFacts()
    ensures !DefaultPermission(Viewer, Gate) && !DefaultPermission(Viewer, Garage)
    ensures !DefaultPermission(Viewer, StopMode) && !DefaultPermission(Viewer, ManageUsers)
    ensures !DefaultPermission(RegularUser, StopMode) && !DefaultPermission(RegularUser, ManageUsers)
    ensures !DefaultPermission(Admin, RequireLocation) && !DefaultPermission(Admin, RequireLocationProximity)
    ensures forall p: Permission :: p != RequireLocation && p != RequireLocationProximity ==> DefaultPermission(Admin, p)
  {
  }

  /** An approved viewer still holding the default flags may drive neither
      gate nor garage and may not use stop mode. */
  lemma DefaultViewerCannotDrive()
    ensures !CanControlGate(Some(UserData(Viewer, true, Some(DefaultFlags(Viewer)))))
    ensures !CanControlGarage(Some(UserData(Viewer, true, Some(DefaultFlags(Viewer)))))
    ensures !CanUseStopMode(Some(UserData(Viewer, true, Some(DefaultFlags(Viewer)))))
  {
    DefaultsDecide(Viewer, Gate);
    DefaultsDecide(Viewer, Garage);
    DefaultsDecide(Viewer, StopMode);
  }
}
