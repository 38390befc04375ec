/**
 * The validity of the change-password form: three required fields, and a new
 * password of at least eight characters that the lookahead pattern accepts.
 * JavaScript's `.` does not match a line terminator, so every lookahead
 * `(?=.*[...])` looks only at the text before the first line break.
 */
module ChangePassword {

  /** The characters JavaScript's `.` does not match. */
  predicate IsLineTerminator(c: char)
  {
    c == '\n' || c == '\r' || c == '\U{2028}' || c == '\U{2029}'
  }

  /** The four character classes the pattern asks for. */
  datatype CharClass = Lower | Upper | Digit | Special

  predicate InClass(c: char, k: CharClass)
  {
    match k
    case Lower => 'a' <= c <= 'z'
    case Upper => 'A' <= c <= 'Z'
    case Digit => '0' <= c <= '9'
    case Special => c in "!@#$%^&*"
  }

  /** `(?=.*[class])` tried at the start of `s`: scans until a class member or a line terminator. */
  predicate LookaheadFinds(s: string, k: CharClass)
  {
    if s == [] then false
    else if InClass(s[0], k) then true
    else if IsLineTerminator(s[0]) then false
    else LookaheadFinds(s[1..], k)
  }

  /** Some member of class `k` comes before the first line terminator of `s`. */
  predicate OnFirstLine(s: string, k: CharClass)
  {
    exists i :: 0 <= i < |s| && InClass(s[i], k) && forall j :: 0 <= j < i ==> !IsLineTerminator(s[j])
  }

  /** A class member before any line terminator makes the lookahead succeed. */
  lemma {:induction false} LookaheadFindsAt(s: string, k: CharClass, i: nat)
    requires i < |s| && InClass(s[i], k)
    requires forall j :: 0 <= j < i ==> !IsLineTerminator(s[j])
    ensures LookaheadFinds(s, k)
  {
    if i > 0 && !InClass(s[0], k) {
      assert forall j :: 0 <= j < i - 1 ==> s[1..][j] == s[j + 1];
      LookaheadFindsAt(s[1..], k, i - 1);
    }
  }

  /** A successful lookahead found a class member before any line terminator. */
  lemma {:induction false} LookaheadFindsWitness(s: string, k: CharClass) returns (i: nat)
    requires LookaheadFinds(s, k)
    ensures i < |s| && InClass(s[i], k)
    ensures forall j :: 0 <= j < i ==> !IsLineTerminator(s[j])
  {
    if InClass(s[0], k) {
      i := 0;
    } else {
      var i' := LookaheadFindsWitness(s[1..], k);
      i := i' + 1;
      assert forall j :: 1 <= j < i ==> s[j] == s[1..][j - 1];
    }
  }

  /** The class lookahead holds iff a class member comes before any line terminator. */
  lemma LookaheadFindsIff(s: string, k: CharClass)
    ensures LookaheadFinds(s, k) <==>
      exists i :: 0 <= i < |s| && InClass(s[i], k) && forall j :: 0 <= j < i ==> !IsLineTerminator(s[j])
  {
    if LookaheadFinds(s, k) {
      var i := LookaheadFindsWitness(s, k);
    }
    if exists i :: 0 <= i < |s| && InClass(s[i], k) && forall j :: 0 <= j < i ==> !IsLineTerminator(s[j]) {
      var i :| 0 <= i < |s| && InClass(s[i], k) && forall j :: 0 <= j < i ==> !IsLineTerminator(s[j]);
      LookaheadFindsAt(s, k, i);
    }
  }

  /** `(?=.{8,})` at the start: the first eight characters exist and none is a line terminator. */
  predicate EightBeforeLineBreak(s: string)
  {
    |s| >= 8 && forall j :: 0 <= j < 8 ==> !IsLineTerminator(s[j])
  }

  /** `Validators.required`: a non-empty value. */
  predicate Required(s: string)
  {
    s != ""
  }

  /**
   * What the new-password validators demand: required, at least 8 long, and
   * the pattern's lookaheads. Accepted exactly when the first line is at least
   * 8 long and holds a member of every class.
   */
  function NewPasswordAccepted(s: string): (r: bool)
    ensures r <==> EightBeforeLineBreak(s) && forall k: CharClass :: OnFirstLine(s, k)
  {
    LookaheadFindsIff(s, Lower);
    LookaheadFindsIff(s, Upper);
    LookaheadFindsIff(s, Digit);
    LookaheadFindsIff(s, Special);
    assert (forall k: CharClass :: OnFirstLine(s, k)) <==>
      OnFirstLine(s, Lower) && OnFirstLine(s, Upper) && OnFirstLine(s, Digit) && OnFirstLine(s, Special);
    && Required(s)
    && |s| >= 8
    && LookaheadFinds(s, Lower)
    && LookaheadFinds(s, Upper)
    && LookaheadFinds(s, Digit)
    && LookaheadFinds(s, Special)
    && EightBeforeLineBreak(s)
  }

  /** The form is valid when the current and confirmation fields are filled and the new password is accepted. */
  function FormValid(currentPassword: string, newPassword: string, confirmPassword: string): (r: bool)
    ensures r <==> && currentPassword != "" && confirmPassword != ""
                   && EightBeforeLineBreak(newPassword)
                   && forall k: CharClass :: OnFirstLine(newPassword, k)
  {
    Required(currentPassword) && NewPasswordAccepted(newPassword) && Required(confirmPassword)
  }

  /** An accepted new password is at least 8 long and holds a member of every class on its first line. */
  lemma AcceptedHasEveryClass(s: string, k: CharClass)
    requires NewPasswordAccepted(s)
    ensures |s| >= 8
    ensures exists i :: 0 <= i < |s| && InClass(s[i], k) && forall j :: 0 <= j < i ==> !IsLineTerminator(s[j])
  {
    LookaheadFindsIff(s, k);
  }

  /** Whether some character of `s` belongs to class `k`. */
  predicate HasMember(s: string, k: CharClass)
  {
    exists i :: 0 <= i < |s| && InClass(s[i], k)
  }

  /** On a single line the policy is: at least 8 long and one member of every class. */
  lemma SingleLinePolicy(s: string)
    requires forall j :: 0 <= j < |s| ==> !IsLineTerminator(s[j])
    ensures NewPasswordAccepted(s) <==> |s| >= 8 && forall k: CharClass :: HasMember(s, k)
  {
    forall k: CharClass ensures LookaheadFinds(s, k) <==> HasMember(s, k) {
      LookaheadFindsIff(s, k);
    }
    assert (forall k: CharClass :: HasMember(s, k)) <==>
      HasMember(s, Lower) && HasMember(s, Upper) && HasMember(s, Digit) && HasMember(s, Special);
  }

  /** The confirmation is only required: validity does not compare it with the new password. */
  lemma ConfirmationIsNotCompared(currentPassword: string, newPassword: string, confirm1: string, confirm2: string)
    requires FormValid(currentPassword, newPassword, confirm1)
    requires confirm2 != ""
    ensures FormValid(currentPassword, newPassword, confirm2)
  {
  }

  /** The freshly built form holds three empty values and is invalid. */
  lemma InitialFormInvalid()
    ensures !FormValid("", "", "")
  {
  }

  /** A password that meets every class is accepted, whatever confirmation is typed. */
  lemma AcceptedExample()
    ensures FormValid("old", "Abcdef1!", "different")
  {
    var s := "Abcdef1!";
    assert forall j :: 0 <= j < |s| ==> !IsLineTerminator(s[j]);
    LookaheadFindsAt(s, Upper, 0);
    LookaheadFindsAt(s, Lower, 1);
    LookaheadFindsAt(s, Digit, 6);
    LookaheadFindsAt(s, Special, 7);
  }

  /** A password without an upper-case letter is rejected, and so is one shorter than 8. */
  lemma RejectedExamples()
    ensures !NewPasswordAccepted("Abcdef1")
    ensures !NewPasswordAccepted("abcdefg1!")
  {
    var s := "abcdefg1!";
    assert forall j :: 0 <= j < |s| ==> !InClass(s[j], Upper);
    if LookaheadFinds(s, Upper) {
      var i := LookaheadFindsWitness(s, Upper);
    }
  }
}
