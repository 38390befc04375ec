/**
 * The favourites page: opening a favourite folder routes to the libraries or
 * to the personal files depending on whether the folder lies under `Sites`;
 * opening a favourite file previews it. The folder's path comes from a node
 * lookup, which may fail, and the current URL from the router; both are
 * parameters here, and what the page asks for is returned as a list of effects
 * in the order it issues them.
 */
module Favorites {
  import opened Wrappers

  datatype PathElement = PathElement(id: string, name: string)

  /** The path of a node; its list of elements may be absent. */
  datatype PathInfo = PathInfo(elements: Option<seq<PathElement>>)

  /** The entry of a favourite, as far as the page looks at it. */
  datatype NodeInfo = NodeInfo(id: string, isFolder: bool, isFile: bool)

  /** A node as the document list hands it over; its entry may be absent. */
  datatype NodeEntity = NodeEntity(entry: Option<NodeInfo>)

  /** The `detail` of a node click event. */
  datatype ClickDetail = ClickDetail(node: Option<NodeEntity>)

  /** The outcome of `getNode` for a folder: the node's path (itself possibly absent), or an error. */
  datatype NodeLookup = Found(path: Option<PathInfo>) | LookupFailed

  const SitesFolderName: string := "Sites"
  const LibrariesRoute: string := "/libraries"
  const PersonalFilesRoute: string := "/personal-files"

  /** What the page asks for: a router navigation, or the preview of a node with the URL to return to. */
  datatype Effect = Navigate(commands: seq<string>) | ShowPreview(node: NodeEntity, location: string)

  /** Whether some element of the path is called `name`. */
  function SomeNamed(elements: seq<PathElement>, name: string): (r: bool)
    ensures r <==> exists i :: 0 <= i < |elements| && elements[i].name == name
  {
    if elements == [] then false
    else if elements[0].name == name then true
    else
      var rest := SomeNamed(elements[1..], name);
      assert forall i :: 1 <= i < |elements| ==> elements[i] == elements[1..][i - 1];
      rest
  }

  /** `isSitePath`: the path and its elements exist and one element is named exactly `Sites`. */
  function IsSitePath(path: Option<PathInfo>): (r: bool)
    ensures r <==>
      && path.Some?
      && path.value.elements.Some?
      && exists i :: 0 <= i < |path.value.elements.value| && path.value.elements.value[i].name == SitesFolderName
  {
    path.Some? && path.value.elements.Some? && SomeNamed(path.value.elements.value, SitesFolderName)
  }

  /** The route of a favourite folder with identifier `id` whose path is `path`. */
  function FolderRoute(id: string, path: Option<PathInfo>): (r: seq<string>)
    ensures |r| == 2 && r[1] == id
    ensures r[0] == LibrariesRoute <==> IsSitePath(path)
    ensures r[0] == PersonalFilesRoute <==> !IsSitePath(path)
  {
    [if IsSitePath(path) then LibrariesRoute else PersonalFilesRoute, id]
  }

  /**
   * `navigate`: a folder is looked up and routed by its path once the lookup
   * answers; a failed lookup never reaches the navigation, and anything other
   * than a folder is ignored.
   */
  function NavigateEffects(favorite: NodeInfo, lookup: string -> NodeLookup): (r: seq<Effect>)
    ensures !favorite.isFolder || lookup(favorite.id).LookupFailed? ==> r == []
    ensures favorite.isFolder && lookup(favorite.id).Found? ==>
      r == [Navigate(FolderRoute(favorite.id, lookup(favorite.id).path))]
  {
    if !favorite.isFolder then []
    else
      match lookup(favorite.id)
      case LookupFailed => []
      case Found(path) => [Navigate(FolderRoute(favorite.id, path))]
  }

  /** `onNodeDoubleClick`: navigates into a folder and previews a file, as two independent tests. */
  function DoubleClickEffects(node: Option<NodeEntity>, lookup: string -> NodeLookup, routerUrl: string): (r: seq<Effect>)
    ensures node.None? || node.value.entry.None? ==> r == []
    ensures node.Some? && node.value.entry.Some? ==>
      var e := node.value.entry.value;
      && |r| == (if e.isFolder && lookup(e.id).Found? then 1 else 0) + (if e.isFile then 1 else 0)
      && (e.isFolder && lookup(e.id).Found? ==> r[0] == Navigate(FolderRoute(e.id, lookup(e.id).path)))
      && (e.isFile ==> r[|r| - 1] == ShowPreview(node.value, routerUrl))
  {
    match node
    case None => []
    case Some(n) =>
      match n.entry
      case None => []
      case Some(e) =>
        NavigateEffects(e, lookup) + (if e.isFile then [ShowPreview(n, routerUrl)] else [])
  }

  /** Every navigation a double click asks for is a folder route with the entry's identifier. */
  lemma DoubleClickNavigatesOnlyToFolders(node: Option<NodeEntity>, lookup: string -> NodeLookup, routerUrl: string, k: nat)
    requires k < |DoubleClickEffects(node, lookup, routerUrl)|
    requires DoubleClickEffects(node, lookup, routerUrl)[k].Navigate?
    ensures node.Some? && node.value.entry.Some? && node.value.entry.value.isFolder
    ensures lookup(node.value.entry.value.id).Found?
    ensures DoubleClickEffects(node, lookup, routerUrl)[k].commands ==
      FolderRoute(node.value.entry.value.id, lookup(node.value.entry.value.id).path)
  {
  }

  /** Every preview a double click asks for is of the clicked file, returning to the current URL. */
  lemma DoubleClickPreviewsOnlyFiles(node: Option<NodeEntity>, lookup: string -> NodeLookup, routerUrl: string, k: nat)
    requires k < |DoubleClickEffects(node, lookup, routerUrl)|
    requires DoubleClickEffects(node, lookup, routerUrl)[k].ShowPreview?
    ensures node.Some? && node.value.entry.Some? && node.value.entry.value.isFile
    ensures DoubleClickEffects(node, lookup, routerUrl)[k] == ShowPreview(node.value, routerUrl)
  {
  }

  /** An entry flagged both folder and file is navigated into and previewed. */
  lemma FolderAndFileDoBoth(n: NodeEntity, lookup: string -> NodeLookup, routerUrl: string)
    requires n.entry.Some? && n.entry.value.isFolder && n.entry.value.isFile
    requires lookup(n.entry.value.id).Found?
    ensures DoubleClickEffects(Some(n), lookup, routerUrl) ==
      [Navigate(FolderRoute(n.entry.value.id, lookup(n.entry.value.id).path)), ShowPreview(n, routerUrl)]
  {
  }

  /** When the folder lookup fails, a double click asks for nothing but the preview of a file. */
  lemma FailedLookupOnlyPreviews(n: NodeEntity, lookup: string -> NodeLookup, routerUrl: string)
    requires n.entry.Some? && lookup(n.entry.value.id).LookupFailed?
    ensures DoubleClickEffects(Some(n), lookup, routerUrl) ==
      (if n.entry.value.isFile then [ShowPreview(n, routerUrl)] else [])
  {
  }

  /** `handleNodeClick`: the double-click behaviour for the event's `detail.node`. */
  function NodeClickEffects(detail: Option<ClickDetail>, lookup: string -> NodeLookup, routerUrl: string): (r: seq<Effect>)
    ensures detail.None? ==> r == []
    ensures detail.Some? ==> r == DoubleClickEffects(detail.value.node, lookup, routerUrl)
  {
    match detail
    case None => []
    case Some(d) => DoubleClickEffects(d.node, lookup, routerUrl)
  }

  /** A favourite folder under a site goes to the libraries, one elsewhere to the personal files. */
  lemma RouteExamples(lookup: string -> NodeLookup)
    requires lookup("f1") == Found(Some(PathInfo(Some([PathElement("r", "Company Home"), PathElement("s", "Sites")]))))
    requires lookup("f2") == Found(Some(PathInfo(Some([PathElement("r", "Company Home"), PathElement("u", "User Homes")]))))
    requires lookup("f3") == Found(Some(PathInfo(None)))
    requires lookup("f4") == LookupFailed
    ensures NodeClickEffects(Some(ClickDetail(Some(NodeEntity(Some(NodeInfo("f1", true, false)))))), lookup, "/favorites")
      == [Navigate([LibrariesRoute, "f1"])]
    ensures NodeClickEffects(Some(ClickDetail(Some(NodeEntity(Some(NodeInfo("f2", true, false)))))), lookup, "/favorites")
      == [Navigate([PersonalFilesRoute, "f2"])]
    ensures DoubleClickEffects(Some(NodeEntity(Some(NodeInfo("f3", true, false)))), lookup, "/favorites")
      == [Navigate([PersonalFilesRoute, "f3"])]
    ensures DoubleClickEffects(Some(NodeEntity(Some(NodeInfo("f4", true, false)))), lookup, "/favorites") == []
  {
    var sites := [PathElement("r", "Company Home"), PathElement("s", "Sites")];
    assert sites[1].name == SitesFolderName;
    var homes := [PathElement("r", "Company Home"), PathElement("u", "User Homes")];
    assert homes[0].name != SitesFolderName && homes[1].name != SitesFolderName;
  }

  /** The subscriptions the page adds on initialisation: reload after an upload completes or is deleted. */
  datatype Subscription = ReloadOnUploadComplete | ReloadOnUploadDeleted | Inherited(name: string)

  /** A column preset reference of the document list. */
  datatype ColumnPreset = ColumnPreset(key: string)

  class FavoritesPage {
    var subscriptions: seq<Subscription>
    var columns: seq<ColumnPreset>

    constructor ()
      ensures subscriptions == [] && columns == []
    {
      subscriptions := [];
      columns := [];
    }

    /** `ngOnInit`: keeps the inherited subscriptions, adds the two reloads and takes the favourites columns. */
    method NgOnInit(favoritesPreset: seq<ColumnPreset>)
      modifies this
      ensures subscriptions == old(subscriptions) + [ReloadOnUploadComplete, ReloadOnUploadDeleted]
      ensures columns == favoritesPreset
    {
      subscriptions := subscriptions + [ReloadOnUploadComplete, ReloadOnUploadDeleted];
      columns := favoritesPreset;
    }
  }
}
