/**
 * The user dialog: the form state, its validation into a map of field
 * errors, the skill toggle, error clearing while typing, the two save
 * payloads and the mapping of registration error codes to field errors.
 */
module UserModal {
  import opened Wrappers
  import Text
  import Seqs
  import opened Js
  import opened UserTypes

  const DEFAULT_MUNICIPALITY := "default-municipality"
  const DEFAULT_MAX_WORKLOAD := 5

  // The keys of the error map.
  const EMAIL := "email"
  const FULL_NAME := "fullName"
  const PASSWORD := "password"
  const CONFIRM_PASSWORD := "confirmPassword"
  const USER_TYPE := "userType"
  const GENERAL := "general"

  const EMAIL_REQUIRED := "Email is required"
  const EMAIL_INVALID := "Email is invalid"
  const FULL_NAME_REQUIRED := "Full name is required"
  const PASSWORD_REQUIRED := "Password is required"
  const PASSWORD_SHORT := "Password must be at least 6 characters"
  const PASSWORDS_DIFFER := "Passwords do not match"
  const USER_TYPE_REQUIRED := "User type is required"
  const MIN_PASSWORD := 6

  /** `formData` */
  datatype FormData = FormData(
    email: string, fullName: string, userType: string, municipalityId: Option<string>,
    phoneNumber: string, department: string, skills: seq<string>, maxWorkload: int,
    password: string, confirmPassword: string)

  /** The form of a new user. */
  const BlankForm := FormData("", "", EMPLOYEE, Some(DEFAULT_MUNICIPALITY), "", "", [], DEFAULT_MAX_WORKLOAD, "", "")

  /** The form filled from an existing user; the password fields start empty. */
  function FormOf(u: User): (f: FormData)
    ensures f.password == "" && f.confirmPassword == ""
    ensures f.email == u.email && f.fullName == u.fullName && f.userType == u.userType
    ensures f.skills == u.skills && f.maxWorkload == u.maxWorkload
  {
    FormData(u.email, u.fullName, u.userType, u.municipalityId, OrString(u.phoneNumber, ""),
             OrString(u.department, ""), u.skills, u.maxWorkload, "", "")
  }

  // ---------------------------------------------------------------------------
  // Validation

  /**
   * `/\S+@\S+\.\S+/` matched at positions `a` (the '@') and `d` (the '.'):
   * a non-space before the '@', only non-spaces between it and the '.', and
   * a non-space after the '.'.
   */
  predicate EmailAt(s: string, a: int, d: int) {
    1 <= a && a + 2 <= d && d + 1 < |s| &&
    !Text.IsWhiteSpace(s[a - 1]) && s[a] == '@' &&
    (forall m :: a < m < d ==> !Text.IsWhiteSpace(s[m])) &&
    s[d] == '.' && !Text.IsWhiteSpace(s[d + 1])
  }

  /** `/\S+@\S+\.\S+/.test(s)`: the pattern is not anchored, so it may match anywhere in `s`. */
  predicate EmailShaped(s: string) {
    exists a, d | 1 <= a < |s| && 0 <= d < |s| :: EmailAt(s, a, d)
  }

  lemma EmailShapeExamples()
    ensures EmailShaped("a@b.c")
    ensures EmailShaped("mail: x@y.z")
    ensures !EmailShaped("a@b")
    ensures !EmailShaped("a @b.c")
  {
    assert EmailAt("a@b.c", 1, 3);
    assert EmailAt("mail: x@y.z", 7, 9);
  }

  /** The e-mail check: required, then shaped. */
  function EmailError(email: string): Option<string> {
    if email == "" then Some(EMAIL_REQUIRED)
    else if !EmailShaped(email) then Some(EMAIL_INVALID)
    else None
  }

  /** The password check of a new user: required, then at least six characters. */
  function PasswordError(password: string): Option<string> {
    if password == "" then Some(PASSWORD_REQUIRED)
    else if |password| < MIN_PASSWORD then Some(PASSWORD_SHORT)
    else None
  }

  function Put(errs: map<string, string>, key: string, e: Option<string>): map<string, string> {
    if e.Some? then errs[key := e.value] else errs
  }

  /**
   * The error map `validateForm` builds, check by check. `editing` is an
   * existing user being edited, whose passwords are not checked.
   */
  function ValidationErrors(f: FormData, editing: bool): (errs: map<string, string>)
    ensures errs.Keys <= {EMAIL, FULL_NAME, PASSWORD, CONFIRM_PASSWORD, USER_TYPE}
    ensures forall k :: k in errs ==> errs[k] != ""
  {
    var errs := Put(map[], EMAIL, EmailError(f.email));
    var errs := Put(errs, FULL_NAME, if f.fullName == "" then Some(FULL_NAME_REQUIRED) else None);
    var errs := if editing then errs
      else Put(Put(errs, PASSWORD, PasswordError(f.password)), CONFIRM_PASSWORD,
               if f.password != f.confirmPassword then Some(PASSWORDS_DIFFER) else None);
    Put(errs, USER_TYPE, if f.userType == "" then Some(USER_TYPE_REQUIRED) else None)
  }

  /** The form passes exactly when every rule holds; the passwords count only for a new user. */
  lemma ValidExactly(f: FormData, editing: bool)
    ensures ValidationErrors(f, editing) == map[] <==>
      f.email != "" && EmailShaped(f.email) && f.fullName != "" && f.userType != "" &&
      (!editing ==> |f.password| >= MIN_PASSWORD && f.password == f.confirmPassword)
  {
    var errs := ValidationErrors(f, editing);
    if f.email == "" || !EmailShaped(f.email) { assert EMAIL in errs; }
    if f.fullName == "" { assert FULL_NAME in errs; }
    if f.userType == "" { assert USER_TYPE in errs; }
    if !editing && |f.password| < MIN_PASSWORD { assert PASSWORD in errs; }
    if !editing && f.password != f.confirmPassword { assert CONFIRM_PASSWORD in errs; }
  }

  /** Each field's message, in the order the checks run. */
  lemma ValidationMessages(f: FormData, editing: bool)
    ensures var errs := ValidationErrors(f, editing);
      (f.email == "" ==> errs[EMAIL] == EMAIL_REQUIRED) &&
      (f.email != "" && !EmailShaped(f.email) ==> errs[EMAIL] == EMAIL_INVALID) &&
      (f.fullName == "" ==> errs[FULL_NAME] == FULL_NAME_REQUIRED) &&
      (f.userType == "" ==> errs[USER_TYPE] == USER_TYPE_REQUIRED) &&
      (!editing && f.password == "" ==> errs[PASSWORD] == PASSWORD_REQUIRED) &&
      (!editing && f.password != "" && |f.password| < MIN_PASSWORD ==> errs[PASSWORD] == PASSWORD_SHORT)
  {
  }

  /**
   * For a new user a mismatch of the two passwords is reported even when the
   * password itself is empty; for an edited user the passwords are never
   * looked at.
   */
  lemma PasswordRules(f: FormData)
    ensures f.password != f.confirmPassword ==> ValidationErrors(f, false)[CONFIRM_PASSWORD] == PASSWORDS_DIFFER
    ensures f.password == "" && f.confirmPassword != "" ==>
      ValidationErrors(f, false)[PASSWORD] == PASSWORD_REQUIRED &&
      ValidationErrors(f, false)[CONFIRM_PASSWORD] == PASSWORDS_DIFFER
    ensures PASSWORD !in ValidationErrors(f, true) && CONFIRM_PASSWORD !in ValidationErrors(f, true)
  {
  }

  // ---------------------------------------------------------------------------
  // Skills, error clearing, payloads and registration errors

  /** `handleSkillToggle`: remove every copy of a present skill, append an absent one. */
  function ToggleSkill(skills: seq<string>, skill: string): (r: seq<string>)
    ensures skill in r <==> skill !in skills
    ensures forall x :: x != skill ==> (x in r <==> x in skills)
    ensures Seqs.NoDuplicates(skills) ==> Seqs.NoDuplicates(r)
  {
    if skill in skills then
      var r := Seqs.Filter(skills, (s: string) => s != skill);
      assert skill !in r;
      assert forall x :: x != skill ==> (x in r <==> x in skills) by {
        forall x | x != skill ensures x in r <==> x in skills {
          assert x in r <==> x in multiset(r);
        }
      }
      assert Seqs.NoDuplicates(skills) ==> Seqs.NoDuplicates(r) by {
        if Seqs.NoDuplicates(skills) { Seqs.FilterNoDuplicates(skills, (s: string) => s != skill); }
      }
      r
    else
      var r := skills + [skill];
      assert forall x :: x in r <==> x in skills || x == skill;
      r
  }

  /**
   * Two toggles restore which skills are chosen; starting from an absent
   * skill they restore the list itself.
   */
  lemma ToggleTwice(skills: seq<string>, skill: string)
    ensures forall x :: x in ToggleSkill(ToggleSkill(skills, skill), skill) <==> x in skills
    ensures skill !in skills ==> ToggleSkill(ToggleSkill(skills, skill), skill) == skills
  {
    if skill !in skills {
      var ne := (s: string) => s != skill;
      Seqs.FilterAppend(skills, [skill], ne);
      Seqs.FilterAll(skills, ne);
      Seqs.FilterCons(skill, [], ne);
      assert [skill] + [] == [skill];
    }
  }

  /** The error shown for a field disappears when the field is edited; every other entry stays. */
  function ClearError(errs: map<string, string>, field: string): (r: map<string, string>)
    ensures !(field in r && r[field] != "")
    ensures forall k :: k != field ==> (k in r <==> k in errs) && (k in errs ==> r[k] == errs[k])
    ensures field in r <==> field in errs
  {
    if field in errs && errs[field] != "" then errs[field := ""] else errs
  }

  /** The fields of the form a text input edits. */
  datatype Field = EmailField | FullNameField | PhoneField | UserTypeField | DepartmentField | PasswordField | ConfirmField

  function FieldName(f: Field): string {
    match f
    case EmailField => EMAIL
    case FullNameField => FULL_NAME
    case PhoneField => "phoneNumber"
    case UserTypeField => USER_TYPE
    case DepartmentField => "department"
    case PasswordField => PASSWORD
    case ConfirmField => CONFIRM_PASSWORD
  }

  function SetField(form: FormData, f: Field, value: string): (r: FormData)
    ensures r.skills == form.skills && r.maxWorkload == form.maxWorkload && r.municipalityId == form.municipalityId
  {
    match f
    case EmailField => form.(email := value)
    case FullNameField => form.(fullName := value)
    case PhoneField => form.(phoneNumber := value)
    case UserTypeField => form.(userType := value)
    case DepartmentField => form.(department := value)
    case PasswordField => form.(password := value)
    case ConfirmField => form.(confirmPassword := value)
  }

  /** `parseInt(value) || 5`: a value that is not a number, or is 0, becomes 5. */
  function WorkloadInput(parsed: Option<int>): (w: int)
    ensures w != 0
    ensures parsed.Some? && parsed.value != 0 ==> w == parsed.value
  {
    OrInt(parsed, DEFAULT_MAX_WORKLOAD)
  }

  /** What is handed to `onSave` (and, for a new user, to registration). */
  datatype Payload =
    | EditPayload(fullName: string, userType: string, phoneNumber: string, department: string,
                  skills: seq<string>, maxWorkload: int)
    | CreatePayload(email: string, fullName: string, userType: string, municipalityId: Option<string>,
                    phoneNumber: string, department: string, skills: seq<string>, maxWorkload: int,
                    password: string)

  function PayloadOf(f: FormData, editing: bool): (p: Payload)
    ensures p.EditPayload? <==> editing
    ensures p.fullName == f.fullName && p.userType == f.userType && p.skills == f.skills && p.maxWorkload == f.maxWorkload
    ensures p.CreatePayload? ==> p.email == f.email && p.password == f.password
  {
    if editing then EditPayload(f.fullName, f.userType, f.phoneNumber, f.department, f.skills, f.maxWorkload)
    else CreatePayload(f.email, f.fullName, f.userType, f.municipalityId, f.phoneNumber, f.department,
                       f.skills, f.maxWorkload, f.password)
  }

  /** The edit payload does not depend on the e-mail address or the passwords in the form. */
  lemma EditPayloadIgnoresCredentials(f: FormData, email: string, password: string, confirm: string)
    ensures PayloadOf(f.(email := email, password := password, confirmPassword := confirm), true) == PayloadOf(f, true)
  {
  }

  const EMAIL_TAKEN := "This email is already registered"
  const EMAIL_REJECTED := "Invalid email address"
  const PASSWORD_WEAK := "Password is too weak"
  const SAVE_FAILED := "Failed to save user. Please try again."

  /** The error map shown after a failed save, by the error's code. */
  function SaveErrors(code: string): (errs: map<string, string>)
    ensures |errs| == 1
    ensures EMAIL in errs <==> code == "auth/email-already-in-use" || code == "auth/invalid-email"
    ensures PASSWORD in errs <==> code == "auth/weak-password"
    ensures GENERAL in errs <==> !(code in {"auth/email-already-in-use", "auth/invalid-email", "auth/weak-password"})
  {
    if code == "auth/email-already-in-use" then map[EMAIL := EMAIL_TAKEN]
    else if code == "auth/invalid-email" then map[EMAIL := EMAIL_REJECTED]
    else if code == "auth/weak-password" then map[PASSWORD := PASSWORD_WEAK]
    else map[GENERAL := SAVE_FAILED]
  }

  // ---------------------------------------------------------------------------
  // The dialog

  /** The checks of `validateForm`, run in order, each adding its field's message. */
  method CollectErrors(f: FormData, editing: bool) returns (newErrors: map<string, string>)
    ensures newErrors == ValidationErrors(f, editing)
  {
    newErrors := map[];
    if f.email == "" {
      newErrors := newErrors[EMAIL := EMAIL_REQUIRED];
    } else if !EmailShaped(f.email) {
      newErrors := newErrors[EMAIL := EMAIL_INVALID];
    }
    ghost var step := Put(map[], EMAIL, EmailError(f.email));
    assert newErrors == step;
    if f.fullName == "" {
      newErrors := newErrors[FULL_NAME := FULL_NAME_REQUIRED];
    }
    step := Put(step, FULL_NAME, if f.fullName == "" then Some(FULL_NAME_REQUIRED) else None);
    assert newErrors == step;
    if !editing {
      if f.password == "" {
        newErrors := newErrors[PASSWORD := PASSWORD_REQUIRED];
      } else if |f.password| < MIN_PASSWORD {
        newErrors := newErrors[PASSWORD := PASSWORD_SHORT];
      }
      step := Put(step, PASSWORD, PasswordError(f.password));
      assert newErrors == step;
      if f.password != f.confirmPassword {
        newErrors := newErrors[CONFIRM_PASSWORD := PASSWORDS_DIFFER];
      }
      step := Put(step, CONFIRM_PASSWORD, if f.password != f.confirmPassword then Some(PASSWORDS_DIFFER) else None);
      assert newErrors == step;
    }
    if f.userType == "" {
      newErrors := newErrors[USER_TYPE := USER_TYPE_REQUIRED];
    }
    step := Put(step, USER_TYPE, if f.userType == "" then Some(USER_TYPE_REQUIRED) else None);
    assert newErrors == step;
  }

  lemma NoKeysIsEmpty(m: map<string, string>)
    ensures |m| == 0 <==> m == map[]
  {
    if m != map[] {
      var k :| k in m;
    }
  }

  class Dialog {
    var isOpen: bool
    var user: Option<User>
    var formData: FormData
    var errors: map<string, string>
    var isLoading: bool

    /** The dialog opened on `user` (to edit) or on nothing (to create): the effect on `[user, isOpen]`. */
    constructor(user: Option<User>)
      ensures isOpen && this.user == user && errors == map[] && !isLoading
      ensures formData == if user.Some? then FormOf(user.value) else BlankForm
    {
      isOpen := true;
      this.user := user;
      formData := if user.Some? then FormOf(user.value) else BlankForm;
      errors := map[];
      isLoading := false;
    }

    /** `validateForm`: collect the errors, show them, and pass when there are none. */
    method ValidateForm() returns (valid: bool)
      modifies this
      ensures errors == ValidationErrors(formData, user.Some?)
      ensures valid <==> errors == map[]
      ensures formData == old(formData) && user == old(user) && isOpen == old(isOpen) && isLoading == old(isLoading)
    {
      var newErrors := CollectErrors(formData, user.Some?);
      errors := newErrors;
      valid := |newErrors| == 0;
      NoKeysIsEmpty(newErrors);
    }

    /**
     * `handleSubmit`. An invalid form stops with its errors shown and nothing
     * sent. Otherwise the payload is sent; `failure` is the code of the error
     * the save raised, if any. Success closes the dialog; a failure keeps it
     * open with the mapped error.
     */
    method HandleSubmit(failure: Option<string>) returns (sent: Option<Payload>)
      modifies this
      ensures var valid := ValidationErrors(old(formData), old(user).Some?) == map[];
        (!valid ==> sent == None && errors == ValidationErrors(old(formData), old(user).Some?) && isOpen == old(isOpen)) &&
        (valid ==> sent == Some(PayloadOf(old(formData), old(user).Some?))) &&
        (valid && failure.None? ==> !isOpen && errors == map[]) &&
        (valid && failure.Some? ==> isOpen == old(isOpen) && errors == SaveErrors(failure.value))
      ensures formData == old(formData) && user == old(user) && !isLoading
    {
      var valid := ValidateForm();
      if !valid {
        isLoading := false;
        return None;
      }
      isLoading := true;
      sent := Some(PayloadOf(formData, user.Some?));
      if failure.None? {
        isOpen := false;
      } else {
        errors := SaveErrors(failure.value);
      }
      isLoading := false;
    }

    /** `handleSkillToggle` */
    method HandleSkillToggle(skill: string)
      modifies this
      ensures formData == old(formData).(skills := ToggleSkill(old(formData).skills, skill))
      ensures errors == old(errors) && user == old(user) && isOpen == old(isOpen) && isLoading == old(isLoading)
    {
      formData := formData.(skills := ToggleSkill(formData.skills, skill));
    }

    /** `handleChange` for a text field: store the value and clear that field's error only. */
    method HandleChange(field: Field, value: string)
      modifies this
      ensures formData == SetField(old(formData), field, value)
      ensures errors == ClearError(old(errors), FieldName(field))
      ensures user == old(user) && isOpen == old(isOpen) && isLoading == old(isLoading)
    {
      formData := SetField(formData, field, value);
      if FieldName(field) in errors && errors[FieldName(field)] != "" {
        errors := errors[FieldName(field) := ""];
      }
    }

    /** `handleChange('maxWorkload', parseInt(value) || 5)` */
    method HandleWorkloadChange(parsed: Option<int>)
      modifies this
      ensures formData == old(formData).(maxWorkload := WorkloadInput(parsed))
      ensures errors == ClearError(old(errors), "maxWorkload")
      ensures user == old(user) && isOpen == old(isOpen) && isLoading == old(isLoading)
    {
      formData := formData.(maxWorkload := WorkloadInput(parsed));
      if "maxWorkload" in errors && errors["maxWorkload"] != "" {
        errors := errors["maxWorkload" := ""];
      }
    }
  }
}
