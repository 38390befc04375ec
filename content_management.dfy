/**
 * The notification rules of the copy, move, delete, purge and restore
 * operations on nodes, and the list of deletions that undoes a copy. Every
 * repository call is replaced by its recorded outcome: counts of created or
 * moved items, a per-node success flag, or an HTTP status code.
 */
module ContentManagement {
  import opened Wrappers

  const GenericError: string := "APP.MESSAGES.ERRORS.GENERIC"
  const PermissionError: string := "APP.MESSAGES.ERRORS.PERMISSION"
  const MoveConflictError: string := "APP.MESSAGES.ERRORS.NODE_MOVE"

  const CopySingular: string := "APP.MESSAGES.INFO.NODE_COPY.SINGULAR"
  const CopyPlural: string := "APP.MESSAGES.INFO.NODE_COPY.PLURAL"
  const CopyPartialSingular: string := "APP.MESSAGES.INFO.NODE_COPY.PARTIAL_SINGULAR"
  const CopyPartialPlural: string := "APP.MESSAGES.INFO.NODE_COPY.PARTIAL_PLURAL"
  const CopyFailSingular: string := "APP.MESSAGES.INFO.NODE_COPY.FAIL_SINGULAR"
  const CopyFailPlural: string := "APP.MESSAGES.INFO.NODE_COPY.FAIL_PLURAL"

  const MoveSingular: string := "APP.MESSAGES.INFO.NODE_MOVE.SINGULAR"
  const MovePlural: string := "APP.MESSAGES.INFO.NODE_MOVE.PLURAL"
  const MovePartialSingular: string := "APP.MESSAGES.INFO.NODE_MOVE.PARTIAL.SINGULAR"
  const MovePartialPlural: string := "APP.MESSAGES.INFO.NODE_MOVE.PARTIAL.PLURAL"
  const MovePartialFail: string := "APP.MESSAGES.INFO.NODE_MOVE.PARTIAL.FAIL"

  /** The status messages the copy and move dialogs emit when they finish. */
  const CopySuccessMessage: string := "OPERATION.SUCCESS.CONTENT.COPY"
  const MoveSuccessMessage: string := "OPERATION.SUCCESS.CONTENT.MOVE"

  datatype Operation = Copy | Move

  datatype Severity = Info | Warning | Error

  /** The key of the notification shown when the copy or move dialog fails with `statusCode`. */
  function ErrorKey(op: Operation, statusCode: Option<int>): (key: string)
    ensures key in {PermissionError, MoveConflictError, GenericError}
    ensures key == PermissionError <==> statusCode == Some(403)
    ensures key == MoveConflictError <==> op == Move && statusCode == Some(409)
  {
    if statusCode == Some(403) then PermissionError
    else if op == Move && statusCode == Some(409) then MoveConflictError
    else GenericError
  }

  /**
   * The key of the notification after a copy of `selected` nodes that produced
   * `created` top-level items, once the dialog emitted `message`.
   */
  function CopyKey(selected: nat, created: nat, message: string): (key: string)
    ensures message != CopySuccessMessage ==> key == GenericError
    ensures message == CopySuccessMessage && selected <= created ==>
      key == (if created == 1 then CopySingular else CopyPlural)
    ensures message == CopySuccessMessage && 0 < created < selected ==>
      key == (if created == 1 then CopyPartialSingular else CopyPartialPlural)
    ensures message == CopySuccessMessage && created == 0 < selected ==>
      key == (if selected == 1 then CopyFailSingular else CopyFailPlural)
  {
    if message != CopySuccessMessage then GenericError
    else
      var failed := if created < selected then selected - created else 0;
      if failed == 0 then (if created == 1 then CopySingular else CopyPlural)
      else if created == 0 then (if failed == 1 then CopyFailSingular else CopyFailPlural)
      else (if created == 1 then CopyPartialSingular else CopyPartialPlural)
  }

  /** The copy cases the service's tests assert, one per test. */
  lemma CopyKeyExamples()
    ensures CopyKey(1, 1, CopySuccessMessage) == CopySingular
    ensures CopyKey(2, 2, CopySuccessMessage) == CopyPlural
    ensures CopyKey(2, 1, CopySuccessMessage) == CopyPartialSingular
    ensures CopyKey(3, 2, CopySuccessMessage) == CopyPartialPlural
    ensures CopyKey(3, 0, CopySuccessMessage) == CopyFailPlural
    ensures CopyKey(1, 0, CopySuccessMessage) == CopyFailSingular
    ensures CopyKey(1, 0, "") == GenericError
    ensures ErrorKey(Copy, Some(403)) == PermissionError
    ensures ErrorKey(Copy, Some(404)) == GenericError
  {
  }

  /** The words of a notification key, joined by single spaces. */
  function JoinWords(words: seq<string>): string
  {
    if words == [] then ""
    else if |words| == 1 then words[0]
    else words[0] + " " + JoinWords(words[1..])
  }

  /** Appending a word to a non-empty list appends a space and the word to the joined key. */
  lemma {:induction false} JoinWordsSnoc(words: seq<string>, w: string)
    requires words != []
    ensures JoinWords(words + [w]) == JoinWords(words) + " " + w
  {
    if |words| == 1 {
      assert (words + [w])[1..] == [w];
    } else {
      assert (words + [w])[1..] == words[1..] + [w];
      JoinWordsSnoc(words[1..], w);
    }
  }

  /**
   * The parts of the notification after a move that fully moved `succeeded`
   * nodes, partially moved `partial` ones and failed on `failed` ones.
   */
  function MoveParts(succeeded: nat, partial: nat, failed: nat): (parts: seq<string>)
    ensures |parts| == (if succeeded > 0 then 1 else 0) + (if partial > 0 then 1 else 0) + (if failed > 0 then 1 else 0)
    ensures succeeded > 0 <==> (parts != [] && parts[0] in {MoveSingular, MovePlural})
    ensures succeeded > 0 ==> parts[0] == (if succeeded == 1 then MoveSingular else MovePlural)
    ensures succeeded == 0 && partial > 0 ==> parts[0] == (if partial == 1 then MovePartialSingular else MovePartialPlural)
    ensures partial > 0 ==> (if partial == 1 then MovePartialSingular else MovePartialPlural) in parts
    ensures MovePartialFail in parts <==> failed > 0
    ensures failed > 0 ==> parts[|parts| - 1] == MovePartialFail
  {
    (if succeeded > 0 then [if succeeded == 1 then MoveSingular else MovePlural] else [])
    + (if partial > 0 then [if partial == 1 then MovePartialSingular else MovePartialPlural] else [])
    + (if failed > 0 then [MovePartialFail] else [])
  }

  /** Whether `s` begins with `prefix`. */
  predicate StartsWith(s: string, prefix: string)
  {
    |prefix| <= |s| && forall i :: 0 <= i < |prefix| ==> s[i] == prefix[i]
  }

  /**
   * The key of the notification after a move: the generic error when the
   * dialog did not report success or nothing was moved, otherwise the joined
   * parts, which begin with the count of fully moved nodes when there is one.
   */
  function MoveKey(succeeded: nat, partial: nat, failed: nat, message: string): (key: string)
    ensures message != MoveSuccessMessage || (succeeded == 0 && partial == 0) ==> key == GenericError
    ensures message == MoveSuccessMessage && (succeeded > 0 || partial > 0) ==> key != GenericError
    ensures message == MoveSuccessMessage && succeeded > 0 ==>
      StartsWith(key, if succeeded == 1 then MoveSingular else MovePlural)
    ensures message == MoveSuccessMessage && succeeded == 0 && partial > 0 ==>
      StartsWith(key, if partial == 1 then MovePartialSingular else MovePartialPlural)
  {
    if message != MoveSuccessMessage || (succeeded == 0 && partial == 0) then GenericError
    else
      JoinedMovePartsNotGeneric(succeeded, partial, failed);
      JoinWords(MoveParts(succeeded, partial, failed))
  }

  /** Failures after some success append ` ...PARTIAL.FAIL` to the key the successes alone give. */
  lemma MoveKeyAppendsFail(succeeded: nat, partial: nat, failed: nat)
    requires succeeded > 0 || partial > 0
    requires failed > 0
    ensures MoveKey(succeeded, partial, failed, MoveSuccessMessage)
         == MoveKey(succeeded, partial, 0, MoveSuccessMessage) + " " + MovePartialFail
  {
    assert MoveParts(succeeded, partial, failed) == MoveParts(succeeded, partial, 0) + [MovePartialFail];
    JoinWordsSnoc(MoveParts(succeeded, partial, 0), MovePartialFail);
  }

  /** Partial moves after full ones append ` ...PARTIAL.SINGULAR` (or `PLURAL`) to the success key. */
  lemma MoveKeyAppendsPartial(succeeded: nat, partial: nat)
    requires succeeded > 0 && partial > 0
    ensures MoveKey(succeeded, partial, 0, MoveSuccessMessage)
         == MoveKey(succeeded, 0, 0, MoveSuccessMessage) + " "
            + (if partial == 1 then MovePartialSingular else MovePartialPlural)
  {
    var p := if partial == 1 then MovePartialSingular else MovePartialPlural;
    assert MoveParts(succeeded, partial, 0) == MoveParts(succeeded, 0, 0) + [p];
    JoinWordsSnoc(MoveParts(succeeded, 0, 0), p);
  }

  /** A joined key starts with its first word. */
  lemma JoinWordsStartsWithFirst(words: seq<string>)
    requires words != []
    ensures StartsWith(JoinWords(words), words[0])
  {
    if |words| > 1 {
      assert JoinWords(words) == words[0] + (" " + JoinWords(words[1..]));
    }
  }

  /** The joined parts of a move that moved something begin with their first part and are not the generic error. */
  lemma JoinedMovePartsNotGeneric(succeeded: nat, partial: nat, failed: nat)
    requires succeeded > 0 || partial > 0
    ensures StartsWith(JoinWords(MoveParts(succeeded, partial, failed)), MoveParts(succeeded, partial, failed)[0])
    ensures JoinWords(MoveParts(succeeded, partial, failed)) != GenericError
  {
    var parts := MoveParts(succeeded, partial, failed);
    var first := parts[0];
    assert first in {MoveSingular, MovePlural, MovePartialSingular, MovePartialPlural};
    assert 14 <= |first| && first[13] == 'I' by {
      if first == MoveSingular {
        assert MoveSingular[13] == 'I';
      } else if first == MovePlural {
        assert MovePlural[13] == 'I';
      } else if first == MovePartialSingular {
        assert MovePartialSingular[13] == 'I';
      } else {
        assert MovePartialPlural[13] == 'I';
      }
    }
    JoinWordsStartsWithFirst(parts);
    assert JoinWords(parts)[13] == 'I';
    assert GenericError[13] == 'E';
  }

  /** The move key is the generic error exactly when success was not reported or nothing moved. */
  lemma MoveKeyGenericIff(succeeded: nat, partial: nat, failed: nat, message: string)
    ensures MoveKey(succeeded, partial, failed, message) == GenericError
        <==> message != MoveSuccessMessage || (succeeded == 0 && partial == 0)
  {
  }

  /** The move cases the service's tests assert, one per test. */
  lemma MoveKeyExamples()
    ensures MoveKey(1, 0, 0, MoveSuccessMessage) == MoveSingular
    ensures MoveKey(2, 0, 0, MoveSuccessMessage) == MovePlural
    ensures MoveKey(0, 1, 0, MoveSuccessMessage) == MovePartialSingular
    ensures MoveKey(0, 2, 0, MoveSuccessMessage) == MovePartialPlural
    ensures MoveKey(1, 0, 1, MoveSuccessMessage) == MoveSingular + " " + MovePartialFail
    ensures MoveKey(1, 1, 0, MoveSuccessMessage) == MoveSingular + " " + MovePartialSingular
    ensures MoveKey(0, 0, 0, "") == GenericError
    ensures MoveKey(0, 0, 1, MoveSuccessMessage) == GenericError
    ensures ErrorKey(Move, Some(403)) == PermissionError
    ensures ErrorKey(Move, Some(404)) == GenericError
    ensures ErrorKey(Move, Some(409)) == MoveConflictError
  {
  }

  /** An item the copy created: a node, or the nodes copied into a folder that already existed. */
  datatype CreatedItem = CreatedNode(id: string) | CreatedInExisting(ids: seq<string>)

  datatype DeleteCall = DeleteCall(nodeId: string, permanent: bool)

  /** Whether the copy created the node `id`, directly or inside an existing folder. */
  predicate WasCreated(items: seq<CreatedItem>, id: string)
  {
    exists i :: 0 <= i < |items| &&
      match items[i]
      case CreatedNode(n) => n == id
      case CreatedInExisting(ns) => id in ns
  }

  /** The deletions that undo a copy: every created node, permanently, in creation order. */
  function UndoCopyCalls(items: seq<CreatedItem>): (calls: seq<DeleteCall>)
    ensures forall c :: c in calls ==> c.permanent
    ensures forall c :: c in calls ==> WasCreated(items, c.nodeId)
  {
    if items == [] then []
    else
      var first := match items[0]
        case CreatedNode(n) => [DeleteCall(n, true)]
        case CreatedInExisting(ns) => seq(|ns|, k requires 0 <= k < |ns| => DeleteCall(ns[k], true));
      var rest := UndoCopyCalls(items[1..]);
      assert forall c :: c in rest ==> WasCreated(items, c.nodeId) by {
        forall c | c in rest ensures WasCreated(items, c.nodeId) {
          var i :| 0 <= i < |items[1..]| && match items[1..][i]
            case CreatedNode(n) => n == c.nodeId
            case CreatedInExisting(ns) => c.nodeId in ns;
          assert items[i + 1] == items[1..][i];
        }
      }
      first + rest
  }

  /** Undoing the copy of two batches undoes the first batch, then the second. */
  lemma {:induction false} UndoCopyCallsAppend(a: seq<CreatedItem>, b: seq<CreatedItem>)
    ensures UndoCopyCalls(a + b) == UndoCopyCalls(a) + UndoCopyCalls(b)
  {
    if a == [] {
      assert a + b == b;
    } else {
      assert (a + b)[0] == a[0];
      assert (a + b)[1..] == a[1..] + b;
      UndoCopyCallsAppend(a[1..], b);
    }
  }

  /** Every node the copy created is deleted by the undo. */
  lemma {:induction false} UndoCopyDeletesEveryCreated(items: seq<CreatedItem>, id: string)
    requires WasCreated(items, id)
    ensures DeleteCall(id, true) in UndoCopyCalls(items)
  {
    var i :| 0 <= i < |items| && match items[i]
      case CreatedNode(n) => n == id
      case CreatedInExisting(ns) => id in ns;
    if i == 0 {
      match items[0]
      case CreatedNode(n) =>
      case CreatedInExisting(ns) =>
        var k :| 0 <= k < |ns| && ns[k] == id;
        assert UndoCopyCalls(items)[k] == DeleteCall(id, true);
    } else {
      assert items[1..][i - 1] == items[i];
      UndoCopyDeletesEveryCreated(items[1..], id);
    }
  }

  /** A node the copy created is deleted on its own, permanently. */
  lemma UndoCopyCallsOfNode(n: string)
    ensures UndoCopyCalls([CreatedNode(n)]) == [DeleteCall(n, true)]
  {
    assert [CreatedNode(n)][1..] == [];
  }

  /** The nodes copied into an existing folder are each deleted once, permanently, in their order. */
  lemma UndoCopyCallsOfExisting(ns: seq<string>)
    ensures UndoCopyCalls([CreatedInExisting(ns)]) == seq(|ns|, k requires 0 <= k < |ns| => DeleteCall(ns[k], true))
  {
    assert [CreatedInExisting(ns)][1..] == [];
  }

  /** The undo case the service's tests assert for a copy into an existing folder. */
  lemma UndoCopyExample()
    ensures UndoCopyCalls([CreatedNode("copy-of-node-1"), CreatedInExisting(["copy-of-child-of-node-2"])])
         == [DeleteCall("copy-of-node-1", true), DeleteCall("copy-of-child-of-node-2", true)]
  {
  }

  /** How many of the per-node outcomes succeeded. */
  function Succeeded(outcomes: seq<bool>): (n: nat)
    ensures n <= |outcomes|
    ensures n == |outcomes| <==> forall i :: 0 <= i < |outcomes| ==> outcomes[i]
    ensures n == 0 <==> forall i :: 0 <= i < |outcomes| ==> !outcomes[i]
  {
    if outcomes == [] then 0
    else (if outcomes[0] then 1 else 0) + Succeeded(outcomes[1..])
  }

  /**
   * The notification after deleting or purging nodes, one outcome per selected
   * node: none for an empty selection (nothing is called), Info when every call
   * succeeded, Error when every call failed, Warning otherwise.
   */
  function BatchSeverity(outcomes: seq<bool>): (r: Option<Severity>)
    ensures r.None? <==> outcomes == []
    ensures r == Some(Info) <==> outcomes != [] && forall i :: 0 <= i < |outcomes| ==> outcomes[i]
    ensures r == Some(Error) <==> outcomes != [] && forall i :: 0 <= i < |outcomes| ==> !outcomes[i]
  {
    if outcomes == [] then None
    else
      var ok := Succeeded(outcomes);
      if ok == |outcomes| then Some(Info)
      else if ok == 0 then Some(Error)
      else Some(Warning)
  }

  /** Warning is raised exactly when some node succeeded and some other failed. */
  lemma BatchSeverityWarningIff(outcomes: seq<bool>)
    ensures BatchSeverity(outcomes) == Some(Warning)
        <==> (exists i :: 0 <= i < |outcomes| && outcomes[i]) && (exists j :: 0 <= j < |outcomes| && !outcomes[j])
  {
  }

  /** The delete and purge cases the service's tests assert. */
  lemma BatchSeverityExamples()
    ensures BatchSeverity([true]) == Some(Info)
    ensures BatchSeverity([false]) == Some(Error)
    ensures BatchSeverity([true, true]) == Some(Info)
    ensures BatchSeverity([false, false]) == Some(Error)
    ensures BatchSeverity([false, true]) == Some(Warning)
    ensures BatchSeverity([false, true, true]) == Some(Warning)
    ensures BatchSeverity([true, false, false]) == Some(Warning)
    ensures BatchSeverity([true, false, false, true]) == Some(Warning)
    ensures BatchSeverity([]) == None
  {
  }

  /** A node in the trash; `path` is absent for nodes the repository gave no path. */
  datatype DeletedNode = DeletedNode(id: string, path: Option<seq<string>>)

  /** The nodes a restore asks the repository for: the selected ones that have a path, in order. */
  function RestoreTargets(selection: seq<DeletedNode>): (targets: seq<DeletedNode>)
    ensures |targets| <= |selection|
    ensures forall n :: n in targets <==> n in selection && n.path.Some?
  {
    if selection == [] then []
    else
      var rest := RestoreTargets(selection[1..]);
      if selection[0].path.Some? then [selection[0]] + rest else rest
  }

  /**
   * The notification after a restore, one outcome per restored node: none when
   * nothing was restored, Error as soon as one node failed, Info otherwise.
   */
  function RestoreSeverity(outcomes: seq<bool>): (r: Option<Severity>)
    ensures r.None? <==> outcomes == []
    ensures r != Some(Warning)
    ensures r == Some(Info) <==> outcomes != [] && forall i :: 0 <= i < |outcomes| ==> outcomes[i]
  {
    if outcomes == [] then None
    else if Succeeded(outcomes) == |outcomes| then Some(Info)
    else Some(Error)
  }

  /** A restore reports Error iff some restored node failed. */
  lemma RestoreSeverityErrorIff(outcomes: seq<bool>)
    ensures RestoreSeverity(outcomes) == Some(Error) <==> exists i :: 0 <= i < |outcomes| && !outcomes[i]
  {
  }

  /** Whether a restored node lies in a library: some element of its path is named `Sites`. */
  predicate IsLibraryContent(node: DeletedNode)
  {
    node.path.Some? && "Sites" in node.path.value
  }

  datatype FollowUp = NavigateToParentFolder(nodeId: string)

  /** The navigation offered with the notification of a restored library node. */
  function RestoreFollowUp(node: DeletedNode): (r: Option<FollowUp>)
    ensures r.Some? <==> IsLibraryContent(node)
    ensures r.Some? ==> r.value.nodeId == node.id
  {
    if IsLibraryContent(node) then Some(NavigateToParentFolder(node.id)) else None
  }

  /** The restore cases the service's tests assert. */
  lemma RestoreExamples()
    ensures RestoreTargets([]) == []
    ensures RestoreTargets([DeletedNode("1", None)]) == []
    ensures RestoreTargets([DeletedNode("1", Some(["somewhere-over-the-rainbow"]))]) != []
    ensures RestoreFollowUp(DeletedNode("1", Some(["Company Home", "Sites"]))) == Some(NavigateToParentFolder("1"))
    ensures RestoreSeverity([true, false, false]) == Some(Error)
    ensures RestoreSeverity([false]) == Some(Error)
    ensures RestoreSeverity([true, true]) == Some(Info)
    ensures RestoreSeverity([true]) == Some(Info)
  {
  }
}
