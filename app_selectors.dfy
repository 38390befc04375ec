/**
 * The selectors of the `app` slice: each reads one field of `state.app`, or
 * builds a record from such reads. Memoisation is not part of the model: a
 * selector is the function it memoises.
 */
module AppSelectors {
  import opened Wrappers
  import opened AppStoreState

  function SelectApp(s: AppStore): AppState { s.app }

  function GetAppName(s: AppStore): string { SelectApp(s).appName }
  function GetLogoPath(s: AppStore): string { SelectApp(s).logoPath }
  function GetCustomCssPath(s: AppStore): string { SelectApp(s).customCssPath }
  function GetCustomWebFontPath(s: AppStore): string { SelectApp(s).webFontPath }
  function GetUserProfile(s: AppStore): ProfileState { SelectApp(s).user }
  function GetCurrentFolder(s: AppStore): Option<NodeRef> { SelectApp(s).navigation.currentFolder }
  function GetCurrentVersion(s: AppStore): Option<VersionRef> { SelectApp(s).currentNodeVersion }
  function GetAppSelection(s: AppStore): SelectionState { SelectApp(s).selection }
  function GetSharedUrl(s: AppStore): string { SelectApp(s).sharedUrl }
  function GetNavigationState(s: AppStore): NavigationState { SelectApp(s).navigation }
  function IsInfoDrawerOpened(s: AppStore): bool { SelectApp(s).infoDrawerOpened }
  function InfoDrawerPreview(s: AppStore): bool { SelectApp(s).infoDrawerPreview }
  function ShowFacetFilter(s: AppStore): bool { SelectApp(s).showFacetFilter }
  function GetDocumentDisplayMode(s: AppStore): string { SelectApp(s).documentDisplayMode }
  function GetRepositoryStatus(s: AppStore): RepositoryInfo { SelectApp(s).repository }
  /** Composed from the repository selector, as in the source. */
  function IsQuickShareEnabled(s: AppStore): bool { GetRepositoryStatus(s).status.isQuickShareEnabled }
  function IsAdmin(s: AppStore): Option<bool> { SelectApp(s).user.isAdmin }
  function GetFileUploadingDialog(s: AppStore): bool { SelectApp(s).fileUploadingDialog }
  function ShowLoaderSelector(s: AppStore): bool { SelectApp(s).showLoader }
  function InfoDrawerMetadataAspect(s: AppStore): string { SelectApp(s).infoDrawerMetadataAspect }

  datatype SideNavState = SideNavState(selection: SelectionState, navigation: NavigationState)

  /** The side-navigation state: the store's own selection and navigation, unchanged. */
  function GetSideNavState(s: AppStore): (r: SideNavState)
    ensures r.selection == s.app.selection && r.navigation == s.app.navigation
  {
    SideNavState(GetAppSelection(s), GetNavigationState(s))
  }

  datatype RuleContext = RuleContext(
    selection: SelectionState, navigation: NavigationState, profile: ProfileState, repository: RepositoryInfo)

  /** The rule context: the store's own selection, navigation, user and repository. */
  function GetRuleContext(s: AppStore): (r: RuleContext)
    ensures r.selection == s.app.selection && r.navigation == s.app.navigation
    ensures r.profile == s.app.user && r.repository == s.app.repository
  {
    RuleContext(GetAppSelection(s), GetNavigationState(s), GetUserProfile(s), GetRepositoryStatus(s))
  }

  /** Two stores agree on every selector. */
  predicate SameSelections(s1: AppStore, s2: AppStore)
  {
    && GetAppName(s1) == GetAppName(s2)
    && GetLogoPath(s1) == GetLogoPath(s2)
    && GetCustomCssPath(s1) == GetCustomCssPath(s2)
    && GetCustomWebFontPath(s1) == GetCustomWebFontPath(s2)
    && GetUserProfile(s1) == GetUserProfile(s2)
    && GetCurrentFolder(s1) == GetCurrentFolder(s2)
    && GetCurrentVersion(s1) == GetCurrentVersion(s2)
    && GetAppSelection(s1) == GetAppSelection(s2)
    && GetSharedUrl(s1) == GetSharedUrl(s2)
    && GetNavigationState(s1) == GetNavigationState(s2)
    && IsInfoDrawerOpened(s1) == IsInfoDrawerOpened(s2)
    && InfoDrawerPreview(s1) == InfoDrawerPreview(s2)
    && ShowFacetFilter(s1) == ShowFacetFilter(s2)
    && GetDocumentDisplayMode(s1) == GetDocumentDisplayMode(s2)
    && GetRepositoryStatus(s1) == GetRepositoryStatus(s2)
    && IsQuickShareEnabled(s1) == IsQuickShareEnabled(s2)
    && IsAdmin(s1) == IsAdmin(s2)
    && GetFileUploadingDialog(s1) == GetFileUploadingDialog(s2)
    && ShowLoaderSelector(s1) == ShowLoaderSelector(s2)
    && InfoDrawerMetadataAspect(s1) == InfoDrawerMetadataAspect(s2)
    && GetSideNavState(s1) == GetSideNavState(s2)
    && GetRuleContext(s1) == GetRuleContext(s2)
  }

  /** The selectors read `state.app` and nothing else, and together they read all of it. */
  lemma SelectorsDetermineApp(s1: AppStore, s2: AppStore)
    ensures SameSelections(s1, s2) <==> s1.app == s2.app
  {
  }

  /** The projections named after the fields they read. */
  lemma ProjectionsOfState(s: AppStore)
    ensures GetCurrentFolder(s) == s.app.navigation.currentFolder
    ensures IsQuickShareEnabled(s) == s.app.repository.status.isQuickShareEnabled
    ensures IsAdmin(s) == s.app.user.isAdmin
    ensures GetCurrentVersion(s) == s.app.currentNodeVersion
  {
  }

  /** The rule context agrees with the side-navigation state on what they share. */
  lemma RuleContextAgreesWithSideNav(s: AppStore)
    ensures GetRuleContext(s).selection == GetSideNavState(s).selection
    ensures GetRuleContext(s).navigation == GetSideNavState(s).navigation
  {
  }
}
