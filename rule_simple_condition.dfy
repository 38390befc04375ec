/**
 * The simple-condition editor of a folder rule: a form holding a field, a
 * comparator and a parameter. The lists of known fields, of comparators and of
 * field types whose comparator is hidden are configuration constants that the
 * component only reads; here they are parameters of the editor.
 */
module RuleSimpleCondition {
  import opened Wrappers

  /** An entry of the field list (`caption` is its `label`); `fieldType` decides which comparators apply. */
  datatype ConditionField = ConditionField(name: string, caption: string, fieldType: string)

  /** A comparator; `labelKeys` are the keys of its `labels` object, one per field type it serves. */
  datatype Comparator = Comparator(name: string, labelKeys: seq<string>)

  datatype MimeType = MimeType(value: string, caption: string)

  /** The form value; a parameter of `None` is the control's `null`/`undefined`. */
  datatype Condition = Condition(field: string, comparator: string, parameter: Option<string>)

  const DefaultField: string := "cm:name"
  const DefaultComparator: string := "equals"
  const SpecialType: string := "special"
  const MimeTypeFieldType: string := "mimeType"

  /** The value of a freshly built form: the parameter control starts without a value. */
  const InitialCondition: Condition := Condition(DefaultField, DefaultComparator, None)

  /** `fields.findIndex(f => f.name === name)`: the first index with that name, or -1. */
  function FindFieldIndex(fields: seq<ConditionField>, name: string): (r: int)
    ensures -1 <= r < |fields|
    ensures r >= 0 ==> fields[r].name == name && forall j :: 0 <= j < r ==> fields[j].name != name
    ensures r == -1 <==> forall j :: 0 <= j < |fields| ==> fields[j].name != name
  {
    if fields == [] then -1
    else if fields[0].name == name then 0
    else
      var k := FindFieldIndex(fields[1..], name);
      if k < 0 then -1 else k + 1
  }

  /** Whether the selected field value names an entry of the field list. */
  function IsFieldKnown(fields: seq<ConditionField>, name: string): (r: bool)
    ensures r <==> exists i :: 0 <= i < |fields| && fields[i].name == name
  {
    FindFieldIndex(fields, name) > -1
  }

  /**
   * The selected field: the first list entry with the selected name, or, for a
   * name the list does not know, a `special` field labelled with that name.
   */
  function SelectedField(fields: seq<ConditionField>, name: string): (f: ConditionField)
    ensures f.name == name
    ensures !IsFieldKnown(fields, name) ==> f == ConditionField(name, name, SpecialType)
    ensures IsFieldKnown(fields, name) ==>
      exists i :: 0 <= i < |fields| && fields[i] == f && forall j :: 0 <= j < i ==> fields[j].name != name
  {
    var i := FindFieldIndex(fields, name);
    if i < 0 then ConditionField(name, name, SpecialType) else fields[i]
  }

  /** The comparators whose labels have a key for `fieldType`, in list order. */
  function ComparatorsFor(comparators: seq<Comparator>, fieldType: string): (r: seq<Comparator>)
    ensures |r| <= |comparators|
    ensures forall c :: c in r <==> c in comparators && fieldType in c.labelKeys
  {
    if comparators == [] then []
    else
      var rest := ComparatorsFor(comparators[1..], fieldType);
      if fieldType in comparators[0].labelKeys then [comparators[0]] + rest else rest
  }

  /** Filtering keeps list order: it distributes over concatenation. */
  lemma {:induction false} ComparatorsForAppend(a: seq<Comparator>, b: seq<Comparator>, fieldType: string)
    ensures ComparatorsFor(a + b, fieldType) == ComparatorsFor(a, fieldType) + ComparatorsFor(b, fieldType)
  {
    if a == [] {
      assert a + b == b;
    } else {
      assert (a + b)[1..] == a[1..] + b;
      ComparatorsForAppend(a[1..], b, fieldType);
    }
  }

  /** The comparators offered for the selected field. */
  function SelectedFieldComparators(fields: seq<ConditionField>, comparators: seq<Comparator>, name: string): (r: seq<Comparator>)
    ensures forall c :: c in r <==> c in comparators && SelectedField(fields, name).fieldType in c.labelKeys
    ensures !IsFieldKnown(fields, name) ==> forall c :: c in r <==> c in comparators && SpecialType in c.labelKeys
  {
    ComparatorsFor(comparators, SelectedField(fields, name).fieldType)
  }

  /** Whether the comparator select is hidden: the selected field's type is a hidden type. */
  function IsComparatorHidden(fields: seq<ConditionField>, hiddenTypes: seq<string>, name: string): (r: bool)
    ensures !IsFieldKnown(fields, name) ==> (r <==> SpecialType in hiddenTypes)
    ensures IsFieldKnown(fields, name) ==>
      (r <==> fields[FindFieldIndex(fields, name)].fieldType in hiddenTypes)
  {
    SelectedField(fields, name).fieldType in hiddenTypes
  }

  /** Whether `comparator` names one of the comparators offered for the selected field. */
  predicate ComparatorOffered(fields: seq<ConditionField>, comparators: seq<Comparator>, name: string, comparator: string)
  {
    exists c :: c in SelectedFieldComparators(fields, comparators, name) && c.name == comparator
  }

  /**
   * The form value after `onChangeField`: an offered comparator is kept,
   * any other becomes `equals`; an empty parameter of a `mimeType` field gets
   * the first mime type's value (absent when there is none), a non-empty
   * parameter is cleared, and the field itself is not touched.
   */
  function ChangeField(fields: seq<ConditionField>, comparators: seq<Comparator>, mimeTypes: seq<MimeType>, c: Condition): (r: Condition)
    ensures r.field == c.field
    ensures ComparatorOffered(fields, comparators, c.field, c.comparator) ==> r.comparator == c.comparator
    ensures !ComparatorOffered(fields, comparators, c.field, c.comparator) ==> r.comparator == DefaultComparator
    ensures Truthy(c.parameter) ==> r.parameter == Some("")
    ensures !Truthy(c.parameter) && SelectedField(fields, c.field).fieldType == MimeTypeFieldType ==>
      r.parameter == (if mimeTypes == [] then None else Some(mimeTypes[0].value))
    ensures !Truthy(c.parameter) && SelectedField(fields, c.field).fieldType != MimeTypeFieldType ==>
      r.parameter == c.parameter
  {
    var comparator :=
      if ComparatorOffered(fields, comparators, c.field, c.comparator) then c.comparator else DefaultComparator;
    var parameter :=
      if !Truthy(c.parameter) && SelectedField(fields, c.field).fieldType == MimeTypeFieldType then
        (if mimeTypes == [] then None else Some(mimeTypes[0].value))
      else if Truthy(c.parameter) then Some("")
      else c.parameter;
    Condition(c.field, comparator, parameter)
  }

  /** After a field change the comparator is one the field offers, or the default `equals`. */
  lemma ChangeFieldComparatorOfferedOrDefault(fields: seq<ConditionField>, comparators: seq<Comparator>, mimeTypes: seq<MimeType>, c: Condition)
    ensures var r := ChangeField(fields, comparators, mimeTypes, c);
      ComparatorOffered(fields, comparators, r.field, r.comparator) || r.comparator == DefaultComparator
  {
  }

  /** Repeating a field change leaves the comparator where the first change put it. */
  lemma ChangeFieldComparatorIdempotent(fields: seq<ConditionField>, comparators: seq<Comparator>, mimeTypes: seq<MimeType>, c: Condition)
    ensures var r := ChangeField(fields, comparators, mimeTypes, c);
      ChangeField(fields, comparators, mimeTypes, r).comparator == r.comparator
  {
  }

  /**
   * The parameter rule is not idempotent: on a `mimeType` field with an empty
   * parameter, a first change fills in the first mime type and a second one clears it.
   */
  lemma ChangeFieldTwiceClearsMimeType(fields: seq<ConditionField>, comparators: seq<Comparator>, mimeTypes: seq<MimeType>, c: Condition)
    requires SelectedField(fields, c.field).fieldType == MimeTypeFieldType
    requires !Truthy(c.parameter)
    requires mimeTypes != [] && mimeTypes[0].value != ""
    ensures ChangeField(fields, comparators, mimeTypes, c).parameter == Some(mimeTypes[0].value)
    ensures ChangeField(fields, comparators, mimeTypes, ChangeField(fields, comparators, mimeTypes, c)).parameter == Some("")
  {
  }

  /** The editor component: the three form controls, the read-only flag and the mime types. */
  class ConditionEditor {
    const fields: seq<ConditionField>
    const comparators: seq<Comparator>
    const hiddenTypes: seq<string>
    var mimeTypes: seq<MimeType>

    var field: string
    var comparator: string
    var parameter: Option<string>

    var readOnly: bool
    /** Whether the form group is disabled. */
    var disabled: bool

    /** The read-only flag always mirrors the form's disabled state. */
    predicate Valid()
      reads this
    {
      readOnly == disabled
    }

    function Value(): Condition
      reads this
    {
      Condition(field, comparator, parameter)
    }

    /** The `isSelectedFieldKnown` getter. */
    function SelectedFieldKnown(): bool
      reads this
    {
      IsFieldKnown(fields, field)
    }

    /** The `selectedFieldComparators` getter. */
    function OfferedComparators(): seq<Comparator>
      reads this
    {
      SelectedFieldComparators(fields, comparators, field)
    }

    /** The `isComparatorHidden` getter. */
    function ComparatorHidden(): bool
      reads this
    {
      IsComparatorHidden(fields, hiddenTypes, field)
    }

    /** A fresh editor: field `cm:name`, comparator `equals`, no parameter, editable. */
    constructor (fields: seq<ConditionField>, comparators: seq<Comparator>, hiddenTypes: seq<string>, configuredMimeTypes: seq<MimeType>)
      ensures Valid()
      ensures Value() == InitialCondition && !readOnly
      ensures this.fields == fields && this.comparators == comparators && this.hiddenTypes == hiddenTypes
      ensures mimeTypes == configuredMimeTypes
    {
      this.fields := fields;
      this.comparators := comparators;
      this.hiddenTypes := hiddenTypes;
      field := DefaultField;
      comparator := DefaultComparator;
      parameter := None;
      readOnly := false;
      disabled := false;
      mimeTypes := configuredMimeTypes;
    }

    /** `writeValue`: replaces all three control values. */
    method WriteValue(value: Condition)
      requires Valid()
      modifies this`field, this`comparator, this`parameter
      ensures Valid()
      ensures Value() == value
      ensures ComparatorHidden() == IsComparatorHidden(fields, hiddenTypes, value.field)
    {
      field, comparator, parameter := value.field, value.comparator, value.parameter;
    }

    /** `setDisabledState` (also the `readOnly` setter): disables or enables the whole form. */
    method SetDisabledState(isDisabled: bool)
      modifies this`readOnly, this`disabled
      ensures Valid()
      ensures readOnly == isDisabled && disabled == isDisabled
    {
      if isDisabled {
        readOnly := true;
        disabled := true;
      } else {
        readOnly := false;
        disabled := false;
      }
    }

    /** `onChangeField`: resets the comparator and the parameter for the newly selected field. */
    method OnChangeField()
      requires Valid()
      modifies this`comparator, this`parameter
      ensures Valid()
      ensures field == old(field) && ComparatorHidden() == old(ComparatorHidden())
      ensures Value() == ChangeField(fields, comparators, mimeTypes, old(Value()))
    {
      if !ComparatorOffered(fields, comparators, field, comparator) {
        comparator := DefaultComparator;
      }
      if !Truthy(parameter) && SelectedField(fields, field).fieldType == MimeTypeFieldType {
        parameter := if mimeTypes == [] then None else Some(mimeTypes[0].value);
      } else if Truthy(parameter) {
        parameter := Some("");
      }
    }
  }
}
