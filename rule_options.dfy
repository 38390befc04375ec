/**
 * The options editor of a folder rule: a form with the checkboxes `isDisabled`,
 * `isInheritable` and `isAsynchronous` and an error-script select that is only
 * shown and enabled while the rule runs asynchronously.
 */
module RuleOptionsEditor {
  import opened Wrappers

  /** The options of a rule as the rest of the application sees them. */
  datatype RuleOptions = RuleOptions(isEnabled: bool, isInheritable: bool, isAsynchronous: bool, errorScript: Option<string>)

  datatype ConstraintValue = ConstraintValue(value: string, caption: string)

  /** The constraint of the error-script parameter; its list of values may be absent. */
  datatype ActionParameterConstraint = ActionParameterConstraint(parameterName: string, constraints: Option<seq<ConstraintValue>>)

  /** The four control values; the form stores the negation of `isEnabled`. */
  datatype OptionsForm = OptionsForm(isDisabled: bool, isInheritable: bool, isAsynchronous: bool, errorScript: Option<string>)

  /** Everything the component keeps: control values, enabled flags and its own fields. */
  datatype EditorState = EditorState(
    form: OptionsForm,
    checkboxesEnabled: bool,
    errorScriptEnabled: bool,
    hideErrorScriptDropdown: bool,
    readOnly: bool,
    isAsynchronousChecked: bool,
    isInheritableChecked: bool)

  /** A fresh component: nothing written, every control enabled, the error-script select hidden. */
  const InitialState: EditorState :=
    EditorState(OptionsForm(false, false, false, None), true, true, true, false, false, false)

  /** The error-script select is shown and enabled exactly when the rule is asynchronous. */
  predicate ErrorScriptInSync(s: EditorState)
  {
    s.hideErrorScriptDropdown == !s.errorScriptEnabled && s.errorScriptEnabled == s.form.isAsynchronous
  }

  /** The control values `writeValue` stores for `options`. */
  function FormOf(options: RuleOptions): (f: OptionsForm)
    ensures f.isDisabled != options.isEnabled
    ensures f.isInheritable == options.isInheritable && f.isAsynchronous == options.isAsynchronous
    ensures f.errorScript.Some?
    ensures options.errorScript.Some? ==> f.errorScript == options.errorScript
    ensures options.errorScript.None? ==> f.errorScript == Some("")
  {
    OptionsForm(!options.isEnabled, options.isInheritable, options.isAsynchronous, Some(options.errorScript.GetOr("")))
  }

  /** The options the form reports on every change. */
  function OptionsOf(f: OptionsForm): (o: RuleOptions)
    ensures o.isEnabled != f.isDisabled
    ensures o.isInheritable == f.isInheritable && o.isAsynchronous == f.isAsynchronous
    ensures o.errorScript.Some?
  {
    RuleOptions(!f.isDisabled, f.isInheritable, f.isAsynchronous, Some(f.errorScript.GetOr("")))
  }

  /** `writeValue`: stores the options and shows the error-script select iff asynchronous. */
  function Written(s: EditorState, options: RuleOptions): (r: EditorState)
    ensures r.form == FormOf(options)
    ensures ErrorScriptInSync(r)
    ensures r.checkboxesEnabled == s.checkboxesEnabled && r.readOnly == s.readOnly
    ensures r.isAsynchronousChecked == s.isAsynchronousChecked && r.isInheritableChecked == s.isInheritableChecked
  {
    var form := FormOf(options);
    if form.isAsynchronous then
      s.(form := form, hideErrorScriptDropdown := false, errorScriptEnabled := true)
    else
      s.(form := form, hideErrorScriptDropdown := true, errorScriptEnabled := false)
  }

  /** The `valueChanges` callback: the checked flags follow the form. */
  function FormChanged(s: EditorState): (r: EditorState)
    ensures r.isAsynchronousChecked == s.form.isAsynchronous && r.isInheritableChecked == s.form.isInheritable
    ensures r.(isAsynchronousChecked := s.isAsynchronousChecked, isInheritableChecked := s.isInheritableChecked) == s
  {
    s.(isAsynchronousChecked := s.form.isAsynchronous, isInheritableChecked := s.form.isInheritable)
  }

  /** `toggleErrorScriptDropdown`: shows and enables the select iff `checked`. */
  function ToggleErrorScript(s: EditorState, checked: bool): (r: EditorState)
    ensures r.hideErrorScriptDropdown == !checked && r.errorScriptEnabled == checked
    ensures r.(hideErrorScriptDropdown := s.hideErrorScriptDropdown, errorScriptEnabled := s.errorScriptEnabled) == s
  {
    if checked then
      s.(hideErrorScriptDropdown := false, errorScriptEnabled := true)
    else
      s.(hideErrorScriptDropdown := true, errorScriptEnabled := false)
  }

  /** `setDisabledState`: disables or enables every control; the select's visibility is not touched. */
  function SetDisabled(s: EditorState, isDisabled: bool): (r: EditorState)
    ensures r.readOnly == isDisabled
    ensures r.checkboxesEnabled == !isDisabled && r.errorScriptEnabled == !isDisabled
    ensures r.form == s.form && r.hideErrorScriptDropdown == s.hideErrorScriptDropdown
    ensures r.isAsynchronousChecked == s.isAsynchronousChecked && r.isInheritableChecked == s.isInheritableChecked
  {
    if isDisabled then
      s.(checkboxesEnabled := false, errorScriptEnabled := false, readOnly := true)
    else
      s.(checkboxesEnabled := true, errorScriptEnabled := true, readOnly := false)
  }

  /** `ngOnInit`: the constraint's values, or none when the constraint or its list is absent. */
  function ErrorScriptOptions(constraint: Option<ActionParameterConstraint>): (r: seq<ConstraintValue>)
    ensures constraint.Some? && constraint.value.constraints.Some? ==> r == constraint.value.constraints.value
    ensures constraint.None? || constraint.value.constraints.None? ==> r == []
  {
    match constraint
    case None => []
    case Some(c) => c.constraints.GetOr([])
  }

  /** Reading the form back gives the written options, with an absent error script as `''`. */
  lemma WriteThenReadRoundTrip(s: EditorState, options: RuleOptions)
    ensures OptionsOf(Written(s, options).form) == options.(errorScript := Some(options.errorScript.GetOr("")))
  {
  }

  /** Writing what the form reports leaves the control values as they were, once written. */
  lemma ReadThenWriteRoundTrip(s: EditorState, f: OptionsForm)
    requires f.errorScript.Some?
    ensures Written(s, OptionsOf(f)).form == f
  {
  }

  /** A toggle that follows the `isAsynchronous` checkbox re-establishes the invariant. */
  lemma ToggleKeepsSync(s: EditorState, checked: bool)
    requires checked == s.form.isAsynchronous
    ensures ErrorScriptInSync(ToggleErrorScript(s, checked))
  {
  }

  /** Disabling and then enabling the form again loses the invariant for a synchronous rule. */
  lemma EnableBreaksSync(s: EditorState, options: RuleOptions)
    requires !options.isAsynchronous
    ensures ErrorScriptInSync(Written(s, options))
    ensures !ErrorScriptInSync(SetDisabled(Written(s, options), false))
    ensures SetDisabled(Written(s, options), false).hideErrorScriptDropdown
  {
  }

  /** A fresh component does not satisfy the invariant: the select is hidden but enabled. */
  lemma InitialNotInSync()
    ensures !ErrorScriptInSync(InitialState)
  {
  }

  /** The component, with the control values and flags as fields it updates in place. */
  class OptionsEditor {
    var isDisabled: bool
    var isInheritable: bool
    var isAsynchronous: bool
    var errorScript: Option<string>
    var checkboxesEnabled: bool
    var errorScriptEnabled: bool

    var hideErrorScriptDropdown: bool
    var readOnly: bool
    var isAsynchronousChecked: bool
    var isInheritableChecked: bool

    var errorScriptConstraint: Option<ActionParameterConstraint>
    var errorScriptOptions: seq<ConstraintValue>

    function State(): EditorState
      reads this
    {
      EditorState(
        OptionsForm(isDisabled, isInheritable, isAsynchronous, errorScript),
        checkboxesEnabled, errorScriptEnabled, hideErrorScriptDropdown, readOnly,
        isAsynchronousChecked, isInheritableChecked)
    }

    constructor (constraint: Option<ActionParameterConstraint>)
      ensures State() == InitialState
      ensures errorScriptConstraint == constraint && errorScriptOptions == []
    {
      isDisabled, isInheritable, isAsynchronous, errorScript := false, false, false, None;
      checkboxesEnabled, errorScriptEnabled := true, true;
      hideErrorScriptDropdown, readOnly := true, false;
      isAsynchronousChecked, isInheritableChecked := false, false;
      errorScriptConstraint := constraint;
      errorScriptOptions := [];
    }

    method WriteValue(options: RuleOptions)
      modifies this
      ensures State() == Written(old(State()), options)
      ensures errorScriptConstraint == old(errorScriptConstraint) && errorScriptOptions == old(errorScriptOptions)
    {
      isDisabled := !options.isEnabled;
      isInheritable := options.isInheritable;
      isAsynchronous := options.isAsynchronous;
      errorScript := Some(options.errorScript.GetOr(""));
      if isAsynchronous {
        hideErrorScriptDropdown := false;
        errorScriptEnabled := true;
      } else {
        hideErrorScriptDropdown := true;
        errorScriptEnabled := false;
      }
    }

    /** The `valueChanges` subscription: updates the checked flags and reports the options. */
    method OnValueChanges() returns (reported: RuleOptions)
      modifies this`isAsynchronousChecked, this`isInheritableChecked
      ensures State() == FormChanged(old(State()))
      ensures reported == OptionsOf(State().form)
    {
      isAsynchronousChecked := isAsynchronous;
      isInheritableChecked := isInheritable;
      reported := RuleOptions(!isDisabled, isInheritable, isAsynchronous, Some(errorScript.GetOr("")));
    }

    method SetDisabledState(disable: bool)
      modifies this`checkboxesEnabled, this`errorScriptEnabled, this`readOnly
      ensures State() == SetDisabled(old(State()), disable)
    {
      if disable {
        checkboxesEnabled, errorScriptEnabled := false, false;
        readOnly := true;
      } else {
        checkboxesEnabled, errorScriptEnabled := true, true;
        readOnly := false;
      }
    }

    method NgOnInit()
      modifies this`errorScriptOptions
      ensures errorScriptOptions == ErrorScriptOptions(errorScriptConstraint)
    {
      errorScriptOptions := match errorScriptConstraint
        case None => []
        case Some(c) => c.constraints.GetOr([]);
    }

    method ToggleErrorScriptDropdown(checked: bool)
      modifies this`hideErrorScriptDropdown, this`errorScriptEnabled
      ensures State() == ToggleErrorScript(old(State()), checked)
    {
      if checked {
        hideErrorScriptDropdown := false;
        errorScriptEnabled := true;
      } else {
        hideErrorScriptDropdown := true;
        errorScriptEnabled := false;
      }
    }
  }
}
