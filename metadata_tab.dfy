/**
 * The metadata tab of the info drawer: it decides once, on initialisation,
 * whether the node's metadata may be edited, and on construction replaces the
 * configured metadata presets by the ones an extension contributes. Whether a
 * node is locked and whether the user may update it are decided by services
 * outside this model; they are parameters here.
 */
module MetadataTab {
  import opened Wrappers

  /** A repository node as far as the tab and its tests look at it. */
  datatype Node = Node(id: string, isLocked: bool, allowableOperations: seq<string>, properties: map<string, string>)

  /** A preset configuration of the content-metadata card, kept as its JSON text. */
  datatype Presets = Presets(json: string)

  /** What an extension contributes to the content-metadata card. */
  datatype ContentMetadataExtension = ContentMetadataExtension(presets: Presets)

  /** The permission the tab asks for. */
  const UpdatePermission: string := "update"

  /** The application configuration, one object shared by every component and updated in place. */
  class AppConfig {
    var contentMetadataPresets: Presets

    constructor (presets: Presets)
      ensures contentMetadataPresets == presets
    {
      contentMetadataPresets := presets;
    }
  }

  /**
   * The value `canUpdateNode` holds after the first initialisation: false
   * without a node or for a locked one, otherwise the answer of the
   * permission check for `update`.
   */
  function CanUpdateNode(node: Option<Node>, isLocked: Node -> bool, permits: (Node, seq<string>) -> bool): (r: bool)
    ensures node.None? ==> !r
    ensures node.Some? && isLocked(node.value) ==> !r
    ensures node.Some? && !isLocked(node.value) ==> (r <==> permits(node.value, [UpdatePermission]))
    ensures r ==> node.Some? && !isLocked(node.value)
  {
    match node
    case None => false
    case Some(n) => if isLocked(n) then false else permits(n, [UpdatePermission])
  }

  /** The lock rule the tab's tests exercise: the node's flag, or a `WRITE_LOCK` lock type. */
  predicate LockedInTests(n: Node)
  {
    n.isLocked || ("cm:lockType" in n.properties && n.properties["cm:lockType"] == "WRITE_LOCK")
  }

  /** The permission check the tab's tests install: some asked permission is allowed on the node. */
  predicate PermitsInTests(n: Node, permissions: seq<string>)
  {
    exists p :: p in permissions && p in n.allowableOperations
  }

  /** The four cases of the tab's tests, with their lock rule and permission check. */
  lemma CanUpdateNodeExamples()
    ensures CanUpdateNode(Some(Node("n", false, ["update"], map[])), LockedInTests, PermitsInTests)
    ensures !CanUpdateNode(Some(Node("n", true, ["update"], map[])), LockedInTests, PermitsInTests)
    ensures !CanUpdateNode(Some(Node("n", false, ["other"], map[])), LockedInTests, PermitsInTests)
    ensures !CanUpdateNode(Some(Node("n", false, ["update"], map["cm:lockType" := "WRITE_LOCK"])), LockedInTests, PermitsInTests)
    ensures !CanUpdateNode(None, LockedInTests, PermitsInTests)
  {
    assert PermitsInTests(Node("n", false, ["update"], map[]), [UpdatePermission]) by {
      assert UpdatePermission in [UpdatePermission];
    }
  }

  /** The presets the configuration holds after the tab is built. */
  function PresetsAfterConstruction(configured: Presets, extension: Option<ContentMetadataExtension>): (r: Presets)
    ensures extension.Some? ==> r == extension.value.presets
    ensures extension.None? ==> r == configured
  {
    match extension
    case Some(e) => e.presets
    case None => configured
  }

  class MetadataTabComponent {
    var node: Option<Node>
    var canUpdateNode: bool

    /** Builds the tab; an extension's presets overwrite the shared configuration's. */
    constructor (config: AppConfig, extension: Option<ContentMetadataExtension>)
      modifies config
      ensures config.contentMetadataPresets == PresetsAfterConstruction(old(config.contentMetadataPresets), extension)
      ensures node == None && !canUpdateNode
    {
      node := None;
      canUpdateNode := false;
      if extension.Some? {
        config.contentMetadataPresets := extension.value.presets;
      }
    }

    /** `ngOnInit`: asks for the `update` permission only for a present, unlocked node. */
    method NgOnInit(isLocked: Node -> bool, permits: (Node, seq<string>) -> bool)
      modifies this`canUpdateNode
      ensures node.Some? && !isLocked(node.value) ==> canUpdateNode == permits(node.value, [UpdatePermission])
      ensures node.None? || isLocked(node.value) ==> canUpdateNode == old(canUpdateNode)
      ensures !old(canUpdateNode) ==> canUpdateNode == CanUpdateNode(node, isLocked, permits)
    {
      if node.Some? && !isLocked(node.value) {
        canUpdateNode := permits(node.value, [UpdatePermission]);
      }
    }
  }
}
