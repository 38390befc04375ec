/**
 * The shape of the application's store slice `app`, with the fields its
 * initial value fills in. Nodes, libraries and versions are referred to by
 * their identifiers.
 */
module AppStoreState {
  import opened Wrappers

  datatype NodeRef = NodeRef(id: string)
  datatype LibraryRef = LibraryRef(id: string)
  datatype VersionRef = VersionRef(id: string)

  /** The signed-in user; unknown until the profile is loaded. */
  datatype ProfileState = ProfileState(isAdmin: Option<bool>, id: Option<string>, firstName: string, lastName: string)

  /** The current selection of nodes and libraries, with its emptiness flag and its count. */
  datatype SelectionState = SelectionState(nodes: seq<NodeRef>, libraries: seq<LibraryRef>, isEmpty: bool, count: int)

  datatype NavigationState = NavigationState(currentFolder: Option<NodeRef>)

  datatype RepositoryStatus = RepositoryStatus(isQuickShareEnabled: bool)
  datatype RepositoryInfo = RepositoryInfo(status: RepositoryStatus)

  datatype AppState = AppState(
    appName: string,
    logoPath: string,
    customCssPath: string,
    webFontPath: string,
    sharedUrl: string,
    user: ProfileState,
    selection: SelectionState,
    navigation: NavigationState,
    currentNodeVersion: Option<VersionRef>,
    infoDrawerOpened: bool,
    infoDrawerPreview: bool,
    infoDrawerMetadataAspect: string,
    showFacetFilter: bool,
    fileUploadingDialog: bool,
    documentDisplayMode: string,
    showLoader: bool,
    repository: RepositoryInfo)

  /** The root state of the store: the `app` slice. */
  datatype AppStore = AppStore(app: AppState)

  /** A selection whose flag and count agree with its contents. */
  predicate SelectionConsistent(s: SelectionState)
  {
    && s.isEmpty == (|s.nodes| == 0 && |s.libraries| == 0)
    && s.count == |s.nodes|
  }
}
