/**
 * A row of the search results: it shows the node's name and, when it differs
 * from the name, its `cm:title` in parentheses; it follows updates of the node
 * and opens a preview. The two observable values are kept as the list of
 * everything pushed into them, whose last element is the one on screen.
 */
module SearchResultsRow {
  import opened Wrappers

  type Properties = map<string, string>

  const TitleProperty: string := "cm:title"

  /** The entry of the row's node, shared with the results table and updated in place. */
  class NodeEntry {
    const id: string
    var name: string
    var isFile: bool
    var properties: Option<Properties>
    var sizeInBytes: int

    constructor (id: string, name: string, isFile: bool, properties: Option<Properties>, sizeInBytes: int)
      ensures this.id == id && this.name == name && this.isFile == isFile
      ensures this.properties == properties && this.sizeInBytes == sizeInBytes
    {
      this.id := id;
      this.name := name;
      this.isFile := isFile;
      this.properties := properties;
      this.sizeInBytes := sizeInBytes;
    }
  }

  /** The node an update notification carries. */
  datatype UpdatedNode = UpdatedNode(id: string, name: string, properties: Option<Properties>)

  /** The title of an entry: `''` without properties, absent when `cm:title` is not among them. */
  function TitleOf(properties: Option<Properties>): (t: Option<string>)
    ensures properties.None? ==> t == Some("")
    ensures properties.Some? && TitleProperty in properties.value ==> t == Some(properties.value[TitleProperty])
    ensures properties.Some? && TitleProperty !in properties.value ==> t.None?
  {
    match properties
    case None => Some("")
    case Some(p) => if TitleProperty in p then Some(p[TitleProperty]) else None
  }

  /** The displayed form of a title: `( title )`, or nothing for an empty or absent title. */
  function FormatTitle(title: Option<string>): (r: string)
    ensures Truthy(title) ==> |r| == |title.value| + 4 && r[..2] == "( " && r[2..|r| - 2] == title.value && r[|r| - 2..] == " )"
    ensures !Truthy(title) ==> r == ""
  {
    if Truthy(title) then "( " + title.value + " )" else ""
  }

  /** What the row has pushed into `name$` and `title$`, and its `isFile` flag. */
  datatype RowView = RowView(names: seq<string>, titles: seq<string>, isFile: bool)

  /** Both observables start with the value `''`. */
  const InitialView: RowView := RowView([""], [""], false)

  /**
   * `updateValues` for an entry: pushes the name, copies `isFile`, and pushes
   * the formatted title unless the title equals the name.
   */
  function UpdateView(v: RowView, name: string, isFile: bool, properties: Option<Properties>): (r: RowView)
    ensures r.names == v.names + [name]
    ensures r.isFile == isFile
    ensures TitleOf(properties) == Some(name) ==> r.titles == v.titles
    ensures TitleOf(properties) != Some(name) ==> r.titles == v.titles + [FormatTitle(TitleOf(properties))]
  {
    var title := TitleOf(properties);
    var titles := if title != Some(name) then v.titles + [FormatTitle(title)] else v.titles;
    RowView(v.names + [name], titles, isFile)
  }

  /** The title on screen stays whatever an earlier update left when the new title equals the name. */
  lemma StaleTitleSurvivesUpdate(name: string, oldTitle: string)
    requires oldTitle != "" && oldTitle != name
    ensures var v := UpdateView(UpdateView(InitialView, name, true, Some(map[TitleProperty := oldTitle])),
                                name, true, Some(map[TitleProperty := name]));
      v.titles[|v.titles| - 1] == "( " + oldTitle + " )"
  {
  }

  /** The effect of opening a row: an automatic download or a view action, never both. */
  datatype PreviewEffect = AutoDownload(nodeId: string) | ViewNode(nodeId: string, location: string)

  class SearchResultsRowComponent {
    /** `context.row.node.entry`, or null while the context holds no row. */
    var row: NodeEntry?
    /** The entry `updateValues` last read. */
    var node: NodeEntry?
    var names: seq<string>
    var titles: seq<string>
    var isFile: bool

    function View(): RowView
      reads this
    {
      RowView(names, titles, isFile)
    }

    constructor (row: NodeEntry?)
      ensures this.row == row && node == null && View() == InitialView
    {
      this.row := row;
      node := null;
      names, titles, isFile := [""], [""], false;
    }

    /** `updateValues`: reads the row's entry; the source fails without a row. */
    method UpdateValues()
      requires row != null
      modifies this`node, this`names, this`titles, this`isFile
      ensures node == row
      ensures View() == UpdateView(old(View()), row.name, row.isFile, row.properties)
    {
      node := row;
      isFile := node.isFile;
      var title := TitleOf(node.properties);
      names := names + [node.name];
      if title != Some(node.name) {
        titles := titles + [FormatTitle(title)];
      }
    }

    /** `ngOnInit`: shows the row's entry once. */
    method NgOnInit()
      requires row != null
      modifies this`node, this`names, this`titles, this`isFile
      ensures node == row
      ensures View() == UpdateView(old(View()), row.name, row.isFile, row.properties)
    {
      UpdateValues();
    }

    /**
     * The `nodeUpdated` handler: for the row's own node it takes over the
     * name and a copy of the properties (no properties copy to an empty
     * object) and shows the entry again; otherwise nothing changes.
     */
    method OnNodeUpdated(updated: UpdatedNode)
      modifies this`node, this`names, this`titles, this`isFile, row
      ensures row == old(row)
      ensures row != null ==> row.isFile == old(row.isFile) && row.sizeInBytes == old(row.sizeInBytes)
      ensures row == null || row.id != updated.id ==> View() == old(View()) && node == old(node)
      ensures row != null && row.id != updated.id ==>
        row.name == old(row.name) && row.properties == old(row.properties)
      ensures row != null && row.id == updated.id ==>
        && row.name == updated.name
        && row.properties == Some(updated.properties.GetOr(map[]))
        && node == row
        && View() == UpdateView(old(View()), updated.name, row.isFile, row.properties)
    {
      if row != null && row.id == updated.id {
        row.name := updated.name;
        row.properties := Some(updated.properties.GetOr(map[]));
        UpdateValues();
      }
    }

    /** `showPreview`: downloads when the size calls for it, otherwise asks to view the node here. */
    method ShowPreview(shouldAutoDownload: int -> bool, routerUrl: string) returns (effect: PreviewEffect)
      requires node != null
      ensures effect.AutoDownload? <==> shouldAutoDownload(node.sizeInBytes)
      ensures effect.nodeId == node.id
      ensures effect.ViewNode? ==> effect.location == routerUrl
    {
      if shouldAutoDownload(node.sizeInBytes) {
        effect := AutoDownload(node.id);
      } else {
        effect := ViewNode(node.id, routerUrl);
      }
    }
  }
}
