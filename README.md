# Alfresco Content Application: verified model of its decision logic

This project models, in Dafny, the parts of the Alfresco Content Application
(an Angular client of the Alfresco repository) that hold checkable logic:

- the **simple-condition editor** of a folder rule (`RuleSimpleCondition`):
  which field is selected, which comparators it offers, whether the comparator
  select is hidden, and how a field change resets the comparator and the
  parameter;
- the **rule-options editor** (`RuleOptionsEditor`): the two-way mapping between
  a rule's options and the form, and the rule that ties the error-script select
  to the `isAsynchronous` checkbox;
- the **notification rules of copy, move, delete, purge and restore**
  (`ContentManagement`) and the deletions that undo a copy;
- the **validity of the change-password form** (`ChangePassword`);
- the **metadata tab** (`MetadataTab`): whether the node may be edited, and the
  presets an extension installs;
- the **search results row** (`SearchResultsRow`): name and title display,
  refresh after a node update, and preview;
- the **favourites page** (`Favorites`): the route chosen for a favourite folder
  and what a double click does;
- the **`app` store slice**: its shape (`AppStoreState`), its selectors
  (`AppSelectors`) and its initial value (`InitialState`).

Components whose fields change in place are classes. Three of them have a
value-level view of their state: `ConditionEditor.Value()`,
`OptionsEditor.State()` and `SearchResultsRowComponent.View()`. Their
state-changing methods are proved to produce the state of a pure transition
function:
- `ConditionEditor.OnChangeField` follows `ChangeField`;
- `OptionsEditor.WriteValue`, `OnValueChanges`, `SetDisabledState` and
  `ToggleErrorScriptDropdown` follow `Written`, `FormChanged`, `SetDisabled`
  and `ToggleErrorScript`; `OptionsEditor.NgOnInit` sets the options list to
  `ErrorScriptOptions` and leaves `State()` unchanged;
- `SearchResultsRowComponent.UpdateValues`, `NgOnInit` and `OnNodeUpdated`
  follow `UpdateView`.

The properties are proved about those functions. The other methods state their
new fields directly:
- `ConditionEditor.WriteValue` and `SetDisabledState`;
- `MetadataTabComponent`'s constructor and `NgOnInit`;
- `FavoritesPage.NgOnInit`.

`SearchResultsRowComponent.ShowPreview` changes nothing and states the effect
it returns. Calls into services the model
cannot see are parameters:
- the configured field, comparator and hidden-type lists;
- the lock test and the permission check;
- the auto-download size test;
- the folder lookup (which may fail) and the router URL.

What a component asks of the router or the store is returned as a value
(`PreviewEffect`, `Effect`, `FollowUp`).

The implementation of the content-management service is not part of this
model; only its tests are. `ContentManagement` therefore gives total functions
that agree with every case the tests assert. Where the tests leave a choice,
the model takes the simplest rule consistent with them:
- success is the exact success message the dialog emits;
- a copy counts its top-level created items, and the failed count is
  `selected - created`;
- a move that moved nothing gives the generic error;
- an empty delete or purge selection gives no notification;
- a restore offers a follow-up navigation only for a path through `Sites`.

Two behaviours of the source are stated as proved facts rather than hidden:
- `RuleOptionsEditor.EnableBreaksSync`: `setDisabledState(false)` re-enables
  the error-script select even when the rule is synchronous and the select is
  hidden.
- `SearchResultsRow.StaleTitleSurvivesUpdate`: when an updated node's title
  equals its name, the row keeps showing the title an earlier update produced.

## Model

| member | source | states |
|---|---|---|
| RuleSimpleCondition.FindFieldIndex | projects/aca-content/folder-rules/src/rule-details/conditions/rule-simple-condition.ui-component.ts:85 | the first index whose field has the name, or -1 exactly when no field has it |
| RuleSimpleCondition.IsFieldKnown | projects/aca-content/folder-rules/src/rule-details/conditions/rule-simple-condition.ui-component.ts:83-86 | the field is known iff some entry of the field list has its name |
| RuleSimpleCondition.SelectedField | projects/aca-content/folder-rules/src/rule-details/conditions/rule-simple-condition.ui-component.ts:87-97 | the selected field keeps the name; an unknown name gives a `special` field labelled with the name, a known one the first list entry with that name |
| RuleSimpleCondition.ComparatorsFor | projects/aca-content/folder-rules/src/rule-details/conditions/rule-simple-condition.ui-component.ts:99-101 | a comparator is offered iff it is in the list and its labels have a key for the field type; never more than the list |
| RuleSimpleCondition.ComparatorsForAppend | projects/aca-content/folder-rules/src/rule-details/conditions/rule-simple-condition.ui-component.ts:99-101 | the filter distributes over concatenation, so the offered comparators keep list order |
| RuleSimpleCondition.SelectedFieldComparators | projects/aca-content/folder-rules/src/rule-details/conditions/rule-simple-condition.ui-component.ts:99-101 | the offered comparators are exactly those of the list whose labels have a key for the selected field's type; `special` for an unknown field |
| RuleSimpleCondition.IsComparatorHidden | projects/aca-content/folder-rules/src/rule-details/conditions/rule-simple-condition.ui-component.ts:102-104 | hidden iff the selected field's type (`special` for an unknown field) is a hidden type |
| RuleSimpleCondition.ChangeField | projects/aca-content/folder-rules/src/rule-details/conditions/rule-simple-condition.ui-component.ts:138-147 | the field is untouched; an offered comparator is kept, any other becomes `equals`; an empty parameter of a `mimeType` field takes the first mime type's value (none without mime types), a non-empty parameter is cleared, any other stays |
| RuleSimpleCondition.ChangeFieldComparatorOfferedOrDefault | projects/aca-content/folder-rules/src/rule-details/conditions/rule-simple-condition.ui-component.ts:139-141 | after a field change the comparator is offered for the field or is `equals` |
| RuleSimpleCondition.ChangeFieldComparatorIdempotent | projects/aca-content/folder-rules/src/rule-details/conditions/rule-simple-condition.ui-component.ts:139-141 | a second field change leaves the comparator where the first put it |
| RuleSimpleCondition.ChangeFieldTwiceClearsMimeType | projects/aca-content/folder-rules/src/rule-details/conditions/rule-simple-condition.ui-component.ts:142-146 | on a `mimeType` field a first change fills in the first mime type and a second clears it |
| RuleSimpleCondition.ConditionEditor.constructor | projects/aca-content/folder-rules/src/rule-details/conditions/rule-simple-condition.ui-component.ts:57-76 | a fresh form holds `cm:name`, `equals` and no parameter, is editable, and holds the configured mime types |
| RuleSimpleCondition.ConditionEditor.WriteValue | projects/aca-content/folder-rules/src/rule-details/conditions/rule-simple-condition.ui-component.ts:116-118 | all three control values are replaced by the written condition; the comparator is hidden as the written field's type says; the read-only flag still mirrors the disabled state |
| RuleSimpleCondition.ConditionEditor.SetDisabledState | projects/aca-content/folder-rules/src/rule-details/conditions/rule-simple-condition.ui-component.ts:128-136 | `readOnly` and the form's disabled state both equal the argument |
| RuleSimpleCondition.ConditionEditor.OnChangeField | projects/aca-content/folder-rules/src/rule-details/conditions/rule-simple-condition.ui-component.ts:138-147 | the new form value is `ChangeField` of the old one; the field, and so whether the comparator is hidden, does not change |
| RuleOptionsEditor.FormOf | projects/aca-content/folder-rules/src/rule-details/options/rule-options.ui-component.ts:90-93 | `isDisabled` is the negation of `isEnabled`, the two flags are copied, an absent error script becomes `''` |
| RuleOptionsEditor.OptionsOf | projects/aca-content/folder-rules/src/rule-details/options/rule-options.ui-component.ts:62-67 | `isEnabled` is the negation of `isDisabled`, the flags are copied, the error script is always present |
| RuleOptionsEditor.Written | projects/aca-content/folder-rules/src/rule-details/options/rule-options.ui-component.ts:87-101 | the form holds `FormOf(options)`, the select is shown and enabled iff the rule is asynchronous, nothing else changes |
| RuleOptionsEditor.FormChanged | projects/aca-content/folder-rules/src/rule-details/options/rule-options.ui-component.ts:59-61 | the checked flags take the form's `isAsynchronous` and `isInheritable`; nothing else changes |
| RuleOptionsEditor.ToggleErrorScript | projects/aca-content/folder-rules/src/rule-details/options/rule-options.ui-component.ts:129-138 | the select is hidden iff not checked and enabled iff checked; nothing else changes |
| RuleOptionsEditor.SetDisabled | projects/aca-content/folder-rules/src/rule-details/options/rule-options.ui-component.ts:111-119 | `readOnly` is the argument, every control is enabled iff not disabled, the values and the select's visibility stay |
| RuleOptionsEditor.ErrorScriptOptions | projects/aca-content/folder-rules/src/rule-details/options/rule-options.ui-component.ts:121-123 | the constraint's values, or none when the constraint or its list is absent |
| RuleOptionsEditor.WriteThenReadRoundTrip | projects/aca-content/folder-rules/src/rule-details/options/rule-options.ui-component.ts:62-93 | reading back the written form gives the options, with an absent error script as `''` |
| RuleOptionsEditor.ReadThenWriteRoundTrip | projects/aca-content/folder-rules/src/rule-details/options/rule-options.ui-component.ts:62-93 | writing the reported options restores a form whose error script is present |
| RuleOptionsEditor.ToggleKeepsSync | projects/aca-content/folder-rules/src/rule-details/options/rule-options.ui-component.ts:129-138 | a toggle that follows `isAsynchronous` establishes the visibility invariant |
| RuleOptionsEditor.EnableBreaksSync | projects/aca-content/folder-rules/src/rule-details/options/rule-options.ui-component.ts:111-119 | after writing a synchronous rule the invariant holds, and enabling the form breaks it while the select stays hidden |
| RuleOptionsEditor.InitialNotInSync | projects/aca-content/folder-rules/src/rule-details/options/rule-options.ui-component.ts:52-71 | a fresh editor does not satisfy the invariant |
| RuleOptionsEditor.OptionsEditor.constructor | projects/aca-content/folder-rules/src/rule-details/options/rule-options.ui-component.ts:52-85 | a fresh editor is `InitialState` with no error-script options |
| RuleOptionsEditor.OptionsEditor.WriteValue | projects/aca-content/folder-rules/src/rule-details/options/rule-options.ui-component.ts:87-101 | the new state is `Written` of the old one |
| RuleOptionsEditor.OptionsEditor.OnValueChanges | projects/aca-content/folder-rules/src/rule-details/options/rule-options.ui-component.ts:59-69 | the new state is `FormChanged` of the old one and the reported options are `OptionsOf` the form |
| RuleOptionsEditor.OptionsEditor.SetDisabledState | projects/aca-content/folder-rules/src/rule-details/options/rule-options.ui-component.ts:111-119 | the new state is `SetDisabled` of the old one |
| RuleOptionsEditor.OptionsEditor.NgOnInit | projects/aca-content/folder-rules/src/rule-details/options/rule-options.ui-component.ts:121-123 | the error-script options are `ErrorScriptOptions` of the constraint |
| RuleOptionsEditor.OptionsEditor.ToggleErrorScriptDropdown | projects/aca-content/folder-rules/src/rule-details/options/rule-options.ui-component.ts:129-138 | the new state is `ToggleErrorScript` of the old one |
| ContentManagement.ErrorKey | projects/aca-content/src/lib/services/content-management.service.spec.ts:204-238 | the permission key iff status 403, the move-conflict key iff a move failed with 409, the generic key otherwise |
| ContentManagement.CopyKey | projects/aca-content/src/lib/services/content-management.service.spec.ts:112-202 | without the success message the generic key; all created gives SINGULAR/PLURAL by count, some created PARTIAL_SINGULAR/PARTIAL_PLURAL, none created FAIL_SINGULAR/FAIL_PLURAL by selection size |
| ContentManagement.CopyKeyExamples | projects/aca-content/src/lib/services/content-management.service.spec.ts:112-238 | every asserted copy case, including the missing success message and the 403 and other statuses |
| ContentManagement.MoveParts | projects/aca-content/src/lib/services/content-management.service.spec.ts:380-499 | one part per non-zero count: the fully moved part first, SINGULAR for one node and PLURAL for more; the partial part SINGULAR or PLURAL by count, first when nothing fully moved; the PARTIAL.FAIL part last iff something failed |
| ContentManagement.MoveKey | projects/aca-content/src/lib/services/content-management.service.spec.ts:380-569 | the generic key when the success message is missing or nothing moved, and a different key otherwise; it begins with SINGULAR or PLURAL by the fully moved count, or with the partial part when only partial moves happened |
| ContentManagement.JoinWordsSnoc | projects/aca-content/src/lib/services/content-management.service.spec.ts:459-499 | joining one more key part appends a space and that part to the joined key |
| ContentManagement.JoinWordsStartsWithFirst | projects/aca-content/src/lib/services/content-management.service.spec.ts:380-499 | a joined move key starts with its first part |
| ContentManagement.JoinedMovePartsNotGeneric | projects/aca-content/src/lib/services/content-management.service.spec.ts:380-499 | the joined key of a move that moved something begins with its first part and is not the generic key |
| ContentManagement.MoveKeyAppendsFail | projects/aca-content/src/lib/services/content-management.service.spec.ts:459-478 | failures after some success append ` …PARTIAL.FAIL` to the key the successes give |
| ContentManagement.MoveKeyAppendsPartial | projects/aca-content/src/lib/services/content-management.service.spec.ts:480-499 | with full and partial moves and no failure, the key is the fully-moved key, a space, and the partial part (singular for one node, plural otherwise) |
| ContentManagement.MoveKeyGenericIff | projects/aca-content/src/lib/services/content-management.service.spec.ts:501-569 | the move key is generic iff the success message is missing or nothing moved, so a failed-only move gives the generic key |
| ContentManagement.MoveKeyExamples | projects/aca-content/src/lib/services/content-management.service.spec.ts:380-569 | every asserted move case, including 403, 409 and other statuses |
| ContentManagement.UndoCopyCalls | projects/aca-content/src/lib/services/content-management.service.spec.ts:253-308 | every deletion is permanent and of a node the copy created |
| ContentManagement.UndoCopyCallsAppend | projects/aca-content/src/lib/services/content-management.service.spec.ts:253-308 | undoing two batches of created items deletes the first batch's nodes, then the second's, in order |
| ContentManagement.UndoCopyDeletesEveryCreated | projects/aca-content/src/lib/services/content-management.service.spec.ts:253-308 | every created node, including those inside an existing folder, is permanently deleted |
| ContentManagement.UndoCopyCallsOfNode | projects/aca-content/src/lib/services/content-management.service.spec.ts:269-308 | a created node is undone by exactly one permanent deletion of that node |
| ContentManagement.UndoCopyCallsOfExisting | projects/aca-content/src/lib/services/content-management.service.spec.ts:269-308 | the nodes copied into an existing folder are undone by one permanent deletion each, in their order and nothing else |
| ContentManagement.UndoCopyExample | projects/aca-content/src/lib/services/content-management.service.spec.ts:269-308 | the asserted undo of a copy into an existing folder |
| ContentManagement.Succeeded | projects/aca-content/src/lib/services/content-management.service.spec.ts:789-898 | the success count is at most the number of outcomes, equals it iff all succeeded, and is 0 iff all failed |
| ContentManagement.BatchSeverityWarningIff | projects/aca-content/src/lib/services/content-management.service.spec.ts:850-898 | delete or purge warns iff some node succeeded and some failed |
| ContentManagement.BatchSeverity | projects/aca-content/src/lib/services/content-management.service.spec.ts:789-1075 | no notification iff the selection is empty; Info iff every node succeeded; Error iff every node failed |
| ContentManagement.BatchSeverityExamples | projects/aca-content/src/lib/services/content-management.service.spec.ts:789-1075 | every asserted delete and purge case, and no notification for an empty selection |
| ContentManagement.RestoreTargets | projects/aca-content/src/lib/services/content-management.service.spec.ts:1079-1127 | restore asks for exactly the selected nodes that have a path, never more than selected |
| ContentManagement.RestoreSeverity | projects/aca-content/src/lib/services/content-management.service.spec.ts:1174-1352 | no notification iff nothing was restored; never a warning; Info iff every restored node succeeded |
| ContentManagement.RestoreSeverityErrorIff | projects/aca-content/src/lib/services/content-management.service.spec.ts:1174-1352 | a restore reports Error iff some restored node failed |
| ContentManagement.RestoreFollowUp | projects/aca-content/src/lib/services/content-management.service.spec.ts:1129-1163 | a navigation to the parent folder, of the restored node, is offered iff its path runs through `Sites` |
| ContentManagement.RestoreExamples | projects/aca-content/src/lib/services/content-management.service.spec.ts:1079-1352 | every asserted restore case: empty selection, no path, a library node, partial and total failure, success |
| ChangePassword.LookaheadFindsAt | projects/aca-content/src/lib/components/change-password/change-password.component.ts:12 | a class member before any line terminator makes the lookahead succeed |
| ChangePassword.LookaheadFindsWitness | projects/aca-content/src/lib/components/change-password/change-password.component.ts:12 | a successful lookahead has a class member before any line terminator |
| ChangePassword.LookaheadFindsIff | projects/aca-content/src/lib/components/change-password/change-password.component.ts:12 | a lookahead succeeds iff a class member comes before the first line terminator |
| ChangePassword.NewPasswordAccepted | projects/aca-content/src/lib/components/change-password/change-password.component.ts:12 | a new password is accepted iff its first eight characters contain no line break and its first line holds a lower-case letter, an upper-case letter, a digit and one of `!@#$%^&*` |
| ChangePassword.FormValid | projects/aca-content/src/lib/components/change-password/change-password.component.ts:10-14 | the form is valid iff the current and confirmation fields are non-empty and the new password is accepted |
| ChangePassword.AcceptedHasEveryClass | projects/aca-content/src/lib/components/change-password/change-password.component.ts:12 | an accepted new password is at least 8 long and has a lower-case letter, an upper-case letter, a digit and one of `!@#$%^&*` on its first line |
| ChangePassword.SingleLinePolicy | projects/aca-content/src/lib/components/change-password/change-password.component.ts:12 | on a single line, a new password is accepted iff it is at least 8 long and has a member of every class |
| ChangePassword.ConfirmationIsNotCompared | projects/aca-content/src/lib/components/change-password/change-password.component.ts:10-14 | validity does not compare the confirmation with the new password; any non-empty one will do |
| ChangePassword.InitialFormInvalid | projects/aca-content/src/lib/components/change-password/change-password.component.ts:10-14 | the form with its three initial `''` values is invalid |
| ChangePassword.AcceptedExample | projects/aca-content/src/lib/components/change-password/change-password.component.ts:10-14 | `Abcdef1!` with any filled current and confirmation fields is a valid form |
| ChangePassword.RejectedExamples | projects/aca-content/src/lib/components/change-password/change-password.component.ts:12 | a 7-character password and one without an upper-case letter are rejected |
| MetadataTab.CanUpdateNode | projects/aca-content/src/lib/components/info-drawer/metadata-tab/metadata-tab.component.ts:71-78 | false without a node or for a locked node; for an unlocked node exactly the answer of the `update` permission check |
| MetadataTab.CanUpdateNodeExamples | projects/aca-content/src/lib/components/info-drawer/metadata-tab/metadata-tab.component.spec.ts:94-131 | the asserted cases: update allowed, locked, no update permission, `WRITE_LOCK` lock type |
| MetadataTab.AppConfig.constructor | projects/aca-content/src/lib/components/info-drawer/metadata-tab/metadata-tab.component.ts:60-66 | the shared application configuration (the `AppConfigService` the tab is given) starts with the configured content-metadata presets |
| MetadataTab.PresetsAfterConstruction | projects/aca-content/src/lib/components/info-drawer/metadata-tab/metadata-tab.component.ts:65-67 | the extension's presets when an extension exists, the configured ones otherwise |
| MetadataTab.MetadataTabComponent.constructor | projects/aca-content/src/lib/components/info-drawer/metadata-tab/metadata-tab.component.ts:55-69 | the shared configuration's presets become `PresetsAfterConstruction`; `canUpdateNode` starts false |
| MetadataTab.MetadataTabComponent.NgOnInit | projects/aca-content/src/lib/components/info-drawer/metadata-tab/metadata-tab.component.ts:71-78 | for a present unlocked node `canUpdateNode` is the permission answer, otherwise it keeps its value; from false it becomes `CanUpdateNode` |
| SearchResultsRow.TitleOf | projects/aca-content/src/lib/components/search/search-results-row/search-results-row.component.ts:89-90 | `''` without properties, the `cm:title` value when present, absent otherwise |
| SearchResultsRow.FormatTitle | projects/aca-content/src/lib/components/search/search-results-row/search-results-row.component.ts:95 | `( title )` for a non-empty title, `''` otherwise |
| SearchResultsRow.UpdateView | projects/aca-content/src/lib/components/search/search-results-row/search-results-row.component.ts:85-97 | the name is pushed, `isFile` is copied, and the formatted title is pushed iff the title differs from the name |
| SearchResultsRow.StaleTitleSurvivesUpdate | projects/aca-content/src/lib/components/search/search-results-row/search-results-row.component.ts:94 | a title equal to the name leaves the earlier formatted title on screen |
| SearchResultsRow.SearchResultsRowComponent.constructor | projects/aca-content/src/lib/components/search/search-results-row/search-results-row.component.ts:55-58 | both observables start at `''`, `isFile` false |
| SearchResultsRow.SearchResultsRowComponent.UpdateValues | projects/aca-content/src/lib/components/search/search-results-row/search-results-row.component.ts:85-97 | the view becomes `UpdateView` of the row's entry, and the row's node is remembered |
| SearchResultsRow.SearchResultsRowComponent.NgOnInit | projects/aca-content/src/lib/components/search/search-results-row/search-results-row.component.ts:67-68 | the entry is shown once |
| SearchResultsRow.SearchResultsRowComponent.OnNodeUpdated | projects/aca-content/src/lib/components/search/search-results-row/search-results-row.component.ts:70-82 | a matching id overwrites the entry's name, replaces its properties by a copy (an empty map when absent) and shows it again; otherwise nothing changes, and the entry's `isFile` and size never change |
| SearchResultsRow.SearchResultsRowComponent.ShowPreview | projects/aca-content/src/lib/components/search/search-results-row/search-results-row.component.ts:104-111 | auto-download iff the size test holds, otherwise a view action with the node id and the current URL |
| Favorites.SomeNamed | projects/aca-content/src/lib/components/favorites/favorites.component.ts:90 | true iff some path element has exactly the name |
| Favorites.IsSitePath | projects/aca-content/src/lib/components/favorites/favorites.component.ts:90 | a site path iff the path and its elements exist and one element is named exactly `Sites` |
| Favorites.FolderRoute | projects/aca-content/src/lib/components/favorites/favorites.component.ts:97-98 | `['/libraries', id]` for a site path, `['/personal-files', id]` otherwise |
| Favorites.NavigateEffects | projects/aca-content/src/lib/components/favorites/favorites.component.ts:86-101 | nothing for a non-folder or when the lookup fails; otherwise one navigation to the route of the folder's looked-up path |
| Favorites.DoubleClickEffects | projects/aca-content/src/lib/components/favorites/favorites.component.ts:103-113 | nothing without a node or entry; a navigation for a folder whose lookup succeeds and a preview at the router URL for a file, independently |
| Favorites.DoubleClickNavigatesOnlyToFolders | projects/aca-content/src/lib/components/favorites/favorites.component.ts:105-107 | every navigation a double click asks for is the route of a clicked folder whose lookup succeeded |
| Favorites.DoubleClickPreviewsOnlyFiles | projects/aca-content/src/lib/components/favorites/favorites.component.ts:109-111 | every preview is of the clicked file and returns to the current URL |
| Favorites.FolderAndFileDoBoth | projects/aca-content/src/lib/components/favorites/favorites.component.ts:105-111 | an entry flagged as both folder and file, whose lookup succeeds, is navigated into and previewed |
| Favorites.FailedLookupOnlyPreviews | projects/aca-content/src/lib/components/favorites/favorites.component.ts:93-99 | when the folder lookup fails, a double click asks only for the preview of a file, and for nothing otherwise |
| Favorites.NodeClickEffects | projects/aca-content/src/lib/components/favorites/favorites.component.ts:115-117 | a click without detail does nothing; otherwise it behaves as a double click on `detail.node` |
| Favorites.RouteExamples | projects/aca-content/src/lib/components/favorites/favorites.component.ts:86-117 | a folder under `Sites` routes to the libraries, others (also without path elements) to the personal files, and a failed lookup navigates nowhere |
| Favorites.FavoritesPage.constructor | projects/aca-content/src/lib/components/favorites/favorites.component.ts:69 | no columns and no subscriptions |
| Favorites.FavoritesPage.NgOnInit | projects/aca-content/src/lib/components/favorites/favorites.component.ts:75-84 | the two reload subscriptions are appended to the existing ones and the columns become the favourites preset |
| AppSelectors.SelectorsDetermineApp | projects/aca-shared/store/src/selectors/app.selectors.ts:28-68 | two stores agree on every selector iff their `app` slices are equal: selectors read only `app`, and all of it |
| AppSelectors.ProjectionsOfState | projects/aca-shared/store/src/selectors/app.selectors.ts:35-46 | current folder, quick share, admin flag and current version are the fields of `state.app` |
| AppSelectors.GetSideNavState | projects/aca-shared/store/src/selectors/app.selectors.ts:50-53 | the side-navigation state is the store's selection and navigation, unchanged |
| AppSelectors.GetRuleContext | projects/aca-shared/store/src/selectors/app.selectors.ts:55-66 | the rule context is the store's selection, navigation, user and repository, unchanged |
| AppSelectors.RuleContextAgreesWithSideNav | projects/aca-shared/store/src/selectors/app.selectors.ts:50-66 | the rule context and the side-navigation state hold the same selection and navigation |
| InitialState.InitialBranding | projects/aca-content/src/lib/store/initial-state.ts:28-32 | the application name, logo path and empty custom paths and shared URL |
| InitialState.InitialSelectionEmpty | projects/aca-content/src/lib/store/initial-state.ts:39-44 | no nodes, no libraries, `isEmpty`, count 0, and the selection is consistent |
| InitialState.InitialNothingOpen | projects/aca-content/src/lib/store/initial-state.ts:45-48 | no current folder and no current version |
| InitialState.InitialInfoDrawerClosed | projects/aca-content/src/lib/store/initial-state.ts:49-51 | the info drawer is closed, without preview, with no metadata aspect |
| InitialState.InitialDisplay | projects/aca-content/src/lib/store/initial-state.ts:52-55 | list mode, no loader, the upload dialog on and the facet filter shown |
| InitialState.InitialQuickShareEnabled | projects/aca-content/src/lib/store/initial-state.ts:56-60 | quick share is enabled |
| InitialState.InitialUserUnknown | projects/aca-content/src/lib/store/initial-state.ts:33-38 | no admin flag, no user id, empty names |
| InitialState.InitialStoreHoldsInitialApp | projects/aca-content/src/lib/store/initial-state.ts:63-65 | the initial store's `app` slice is the initial app state |

## Left out

- Angular forms internals are not modelled: the `valueChanges` emissions during `writeValue`, disabled controls being dropped from `form.value`, and the `onChange`/`onTouch` callbacks.
- RuleOptionsEditor.OptionsEditor.constructor: the controls start as `null` in the source. The model starts them as `false` and an absent error script. Both are falsy, so no branch of the component behaves differently.
- RuleSimpleCondition.ConditionEditor.constructor: the configured mime types are a list. A configuration without the `mimeTypes` entry makes `onChangeField` fail in the source; the model has no such case.
- ChangePassword.NewPasswordAccepted: this is the policy the pattern's lookaheads express. `Validators.pattern` anchors a string pattern by appending `$`, and that library code is not part of this model. Taken literally, the anchored pattern matches no string at all, so every non-empty password would be rejected. The model does not claim that Angular accepts the passwords it accepts.
- ChangePassword: lengths count characters, where JavaScript counts UTF-16 code units. The two differ only for characters outside the Basic Multilingual Plane.
- ContentManagement: the undo of a move is left out. It orchestrates REST calls, moves deleted entries back and restores folders, and asserts no decision that goes beyond the severity rules already modelled.
- ContentManagement: the share, unlock, version, edit-folder, aspect and leave-library tests are left out. They are dialog orchestration.
- ContentManagement: how the service counts created, moved or failed items from REST responses is not modelled. The counts are inputs.
- MetadataTab: the lock test and the permission check are parameters. `PermitsInTests` is the permission check the tests install. The lock test is the library's `isLocked`, which is not part of this model. `LockedInTests` is a reading of the nodes the tests use: the node's own flag, or a `WRITE_LOCK` lock type. The error notification subscription and `displayAspect$` are left out.
- MetadataTab.MetadataTabComponent.constructor: the configuration always has a content-metadata presets slot. When an extension provides metadata and the configuration has no `content-metadata` entry, the source throws a `TypeError`; the model has no such case.
- SearchResultsRow.SearchResultsRowComponent.UpdateValues: requires a row. Without one the source throws a `TypeError`, and the model does not describe that failure. The same holds for `SearchResultsRow.SearchResultsRowComponent.NgOnInit`, which calls it.
- SearchResultsRow.SearchResultsRowComponent.ShowPreview: requires that `updateValues` has run, so the node is present. Without it the source throws a `TypeError`, and the model does not describe that failure.
- SearchResultsRow.SearchResultsRowComponent.ShowPreview: the node's content size is a plain number. A node without `content` makes the source fail, and the model has no such case.
- SearchResultsRow: `navigate` only dispatches a navigation action for the node and is not modelled. The observables are modelled as the list of values pushed into them; subscription and teardown are left out.
- Favorites.NavigateEffects: the folder lookup is a parameter whose answer is a path or a failure; a failure gives no navigation, as in the source. Its asynchronous completion is not modelled, and the navigation is listed in the order it is requested. The inherited `PageComponent.ngOnInit` is not part of this model.
- AppSelectors: `createSelector` memoisation is not modelled; each selector is the function it memoises. The full `AppStore` and `AppState` interfaces are not part of this model, so their shape is taken from the initial state.
- The store actions, the side navigation and the end-to-end suites are not part of this model. They hold no logic beyond dispatching and rendering.
