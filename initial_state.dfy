/** The value the store starts from. */
module InitialState {
  import opened Wrappers
  import opened AppStoreState
  import opened AppSelectors

  const InitialAppState: AppState := AppState(
    appName := "Alfresco Content Application",
    logoPath := "assets/images/alfresco-logo-white.svg",
    customCssPath := "",
    webFontPath := "",
    sharedUrl := "",
    user := ProfileState(None, None, "", ""),
    selection := SelectionState([], [], true, 0),
    navigation := NavigationState(None),
    currentNodeVersion := None,
    infoDrawerOpened := false,
    infoDrawerPreview := false,
    infoDrawerMetadataAspect := "",
    showFacetFilter := true,
    fileUploadingDialog := true,
    documentDisplayMode := "list",
    showLoader := false,
    repository := RepositoryInfo(RepositoryStatus(true)))

  const InitialStore: AppStore := AppStore(InitialAppState)

  /** The product name and logo, and no custom styling or shared link. */
  lemma InitialBranding()
    ensures GetAppName(InitialStore) == "Alfresco Content Application"
    ensures GetLogoPath(InitialStore) == "assets/images/alfresco-logo-white.svg"
    ensures GetCustomCssPath(InitialStore) == "" && GetCustomWebFontPath(InitialStore) == "" && GetSharedUrl(InitialStore) == ""
  {
  }

  /** Nothing is selected, and the selection's flag and count say so. */
  lemma InitialSelectionEmpty()
    ensures GetAppSelection(InitialStore).nodes == [] && GetAppSelection(InitialStore).libraries == []
    ensures GetAppSelection(InitialStore).isEmpty && GetAppSelection(InitialStore).count == 0
    ensures SelectionConsistent(GetAppSelection(InitialStore))
  {
  }

  /** There is no current folder and no current version. */
  lemma InitialNothingOpen()
    ensures GetCurrentFolder(InitialStore).None? && GetCurrentVersion(InitialStore).None?
  {
  }

  /** The info drawer is closed, without preview, and shows no metadata aspect. */
  lemma InitialInfoDrawerClosed()
    ensures !IsInfoDrawerOpened(InitialStore) && !InfoDrawerPreview(InitialStore)
    ensures InfoDrawerMetadataAspect(InitialStore) == ""
  {
  }

  /** List mode, no loader, the upload dialog on and the facet filter shown. */
  lemma InitialDisplay()
    ensures GetDocumentDisplayMode(InitialStore) == "list" && !ShowLoaderSelector(InitialStore)
    ensures GetFileUploadingDialog(InitialStore) && ShowFacetFilter(InitialStore)
  {
  }

  /** Quick share is on until the repository says otherwise. */
  lemma InitialQuickShareEnabled()
    ensures IsQuickShareEnabled(InitialStore)
  {
  }

  /** The user is unknown: no admin flag, no identifier, empty names. */
  lemma InitialUserUnknown()
    ensures IsAdmin(InitialStore).None? && GetUserProfile(InitialStore).id.None?
    ensures GetUserProfile(InitialStore).firstName == "" && GetUserProfile(InitialStore).lastName == ""
  {
  }

  /** The root state holds exactly the initial `app` slice. */
  lemma InitialStoreHoldsInitialApp()
    ensures SelectApp(InitialStore) == InitialAppState
  {
  }
}
