/**
 * The user mode and feature gating (src/services/devMode.ts): which tier
 * and role the app runs as, and which features that tier and role unlock.
 * The stored developer override and the signed-in user are parameters.
 */
module DevMode {
  import opened Text

  datatype UserTier = Individual | Pro
  datatype UserRole = Physician | Admin

  /** The signed-in user, as far as the mode is concerned. */
  datatype AuthUser = AuthUser(
    tier: UserTier,
    role: Option<UserRole>,
    organizationId: Option<string>,
    organizationName: Option<string>)

  /** The stored developer override. */
  datatype DevModeSettings = DevModeSettings(
    enabled: bool,
    userTier: UserTier,
    userRole: Option<UserRole>,
    useMockServer: bool,
    mockOrganizationId: Option<string>,
    mockOrganizationName: Option<string>)

  datatype UserMode = UserMode(
    tier: UserTier,
    role: Option<UserRole>,
    isDevMode: bool,
    organizationId: Option<string>,
    organizationName: Option<string>)

  /**
   * `getUserMode`: an enabled developer override wins; otherwise the signed-in
   * user decides; otherwise individual mode with no role and no organisation.
   */
  function GetUserMode(dev: Option<DevModeSettings>, user: Option<AuthUser>): (m: UserMode)
    ensures m.isDevMode <==> dev.Some? && dev.value.enabled
    ensures m.isDevMode ==>
      var d := dev.value;
      m.tier == d.userTier && m.role == d.userRole
      && m.organizationId == d.mockOrganizationId && m.organizationName == d.mockOrganizationName
    ensures !m.isDevMode && user.Some? ==>
      var u := user.value;
      m.tier == u.tier && m.role == u.role
      && m.organizationId == u.organizationId && m.organizationName == u.organizationName
    ensures !m.isDevMode && user.None? ==>
      m.tier == Individual && m.role.None? && m.organizationId.None? && m.organizationName.None?
  {
    if dev.Some? && dev.value.enabled then
      var d := dev.value;
      UserMode(d.userTier, d.userRole, true, d.mockOrganizationId, d.mockOrganizationName)
    else if user.Some? then
      var u := user.value;
      UserMode(u.tier, u.role, false, u.organizationId, u.organizationName)
    else
      UserMode(Individual, None, false, None, None)
  }

  const ProOnlyFeatures: seq<string> :=
    ["rounds", "sync", "practiceConnection", "adminPortal", "cloudBackup", "multiDevice"]

  const AdminOnlyFeatures: seq<string> := ["adminPortal", "manageUsers", "manageCathLabs", "reports"]

  /**
   * `isFeatureAvailable`: the admin-only list is checked first and needs a
   * pro admin; the pro-only list needs the pro tier; any other feature is
   * open to everyone.
   */
  function IsFeatureAvailable(feature: string, mode: UserMode): (ok: bool)
    ensures feature in AdminOnlyFeatures ==> (ok <==> mode.tier == Pro && mode.role == Some(Admin))
    ensures feature !in AdminOnlyFeatures && feature in ProOnlyFeatures ==> (ok <==> mode.tier == Pro)
    ensures feature !in AdminOnlyFeatures && feature !in ProOnlyFeatures ==> ok
  {
    if feature in AdminOnlyFeatures then mode.tier == Pro && mode.role == Some(Admin)
    else if feature in ProOnlyFeatures then mode.tier == Pro
    else true
  }

  /**
   * The admin portal is on both lists; the admin check comes first, so a pro
   * physician does not get it although the pro-only list names it.
   */
  lemma AdminPortalNeedsAdmin(mode: UserMode)
    ensures IsFeatureAvailable("adminPortal", mode) <==> mode.tier == Pro && mode.role == Some(Admin)
    ensures mode.tier == Pro && mode.role != Some(Admin) ==> !IsFeatureAvailable("adminPortal", mode)
  {
    assert "adminPortal" == AdminOnlyFeatures[0];
  }

  /** A pro admin has every feature; an individual has exactly those on neither list. */
  lemma FeaturesByTier(feature: string, mode: UserMode)
    ensures mode.tier == Pro && mode.role == Some(Admin) ==> IsFeatureAvailable(feature, mode)
    ensures mode.tier == Individual ==>
      (IsFeatureAvailable(feature, mode) <==> feature !in AdminOnlyFeatures && feature !in ProOnlyFeatures)
  {
  }

  /** Whatever is available to a user of a tier and role is available to a pro admin. */
  lemma ProAdminHasMost(feature: string, mode: UserMode)
    requires IsFeatureAvailable(feature, mode)
    ensures IsFeatureAvailable(feature, mode.(tier := Pro, role := Some(Admin)))
  {
  }

  /** With no override and no one signed in, the app runs in individual mode and every gated feature is closed. */
  lemma SignedOutIsIndividual(dev: Option<DevModeSettings>, feature: string)
    requires dev.None? || !dev.value.enabled
    ensures GetUserMode(dev, None).tier == Individual
    ensures feature in AdminOnlyFeatures || feature in ProOnlyFeatures ==>
      !IsFeatureAvailable(feature, GetUserMode(dev, None))
  {
  }
}
