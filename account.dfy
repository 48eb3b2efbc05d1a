/**
 * The profile form of the account page: editing a field, the validation that
 * fills a record of per-field errors, and the profile update it sends.
 */
module Account {
  import opened Wrappers
  import Text
  import opened Params

  datatype ProfileForm = ProfileForm(
    name: string, email: string, currentPassword: string, newPassword: string, confirmPassword: string)

  const BlankForm := ProfileForm("", "", "", "", "")

  datatype FieldName = Name | Email | CurrentPassword | NewPassword | ConfirmPassword

  /** The input's `name` attribute, which is also its key in the error record. */
  function KeyOf(n: FieldName): string {
    match n
    case Name => "name"
    case Email => "email"
    case CurrentPassword => "currentPassword"
    case NewPassword => "newPassword"
    case ConfirmPassword => "confirmPassword"
  }

  function Read(f: ProfileForm, n: FieldName): string {
    match n
    case Name => f.name
    case Email => f.email
    case CurrentPassword => f.currentPassword
    case NewPassword => f.newPassword
    case ConfirmPassword => f.confirmPassword
  }

  /** `{ ...prev, [name]: value }`. */
  function With(f: ProfileForm, n: FieldName, value: string): (r: ProfileForm)
    ensures Read(r, n) == value
    ensures forall m :: m != n ==> Read(r, m) == Read(f, m)
  {
    match n
    case Name => f.(name := value)
    case Email => f.(email := value)
    case CurrentPassword => f.(currentPassword := value)
    case NewPassword => f.(newPassword := value)
    case ConfirmPassword => f.(confirmPassword := value)
  }

  // ---------------------------------------------------------------------
  // Validation rules
  // ---------------------------------------------------------------------

  const NameRequired := "Name is required"
  const EmailRequired := "Email is required"
  const EmailInvalid := "Email is invalid"
  const CurrentRequired := "Current password is required"
  const PasswordTooShort := "New password must be at least 6 characters"
  const PasswordMismatch := "Passwords do not match"
  const MinPasswordLength := 6

  /**
   * `/\S+@\S+\.\S+/.test(s)`: somewhere in `s` an `@` preceded by a non-space,
   * then at least one non-space, a `.`, and one more non-space. The pattern is
   * not anchored, so the rest of `s` may hold anything.
   */
  predicate EmailLike(s: string) {
    exists at, dot :: 1 <= at && at + 2 <= dot < |s| - 1 && EmailAt(s, at, dot)
  }

  predicate EmailAt(s: string, at: int, dot: int)
    requires 1 <= at && at + 2 <= dot < |s| - 1
  {
    !Text.IsSpace(s[at - 1]) && s[at] == '@' &&
    (forall k :: at < k < dot ==> !Text.IsSpace(s[k])) &&
    s[dot] == '.' && !Text.IsSpace(s[dot + 1])
  }

  /** Password rules apply once any of the three password fields is filled. */
  predicate ChangingPassword(f: ProfileForm) {
    f.currentPassword != "" || f.newPassword != "" || f.confirmPassword != ""
  }

  /** The message each field's rule records, if any. */
  function Rule(f: ProfileForm, n: FieldName): Option<string> {
    match n
    case Name => if Text.Trim(f.name) == "" then Some(NameRequired) else None
    case Email =>
      if Text.Trim(f.email) == "" then Some(EmailRequired)
      else if !EmailLike(f.email) then Some(EmailInvalid)
      else None
    case CurrentPassword =>
      if ChangingPassword(f) && f.currentPassword == "" then Some(CurrentRequired) else None
    case NewPassword =>
      if ChangingPassword(f) && f.newPassword != "" && |f.newPassword| < MinPasswordLength
      then Some(PasswordTooShort) else None
    case ConfirmPassword =>
      if ChangingPassword(f) && f.newPassword != f.confirmPassword then Some(PasswordMismatch) else None
  }

  /** The form as the rules accept it, stated field by field. */
  predicate Acceptable(f: ProfileForm) {
    Text.Trim(f.name) != "" && Text.Trim(f.email) != "" && EmailLike(f.email) &&
    (ChangingPassword(f) ==>
      f.currentPassword != "" &&
      (f.newPassword == "" || |f.newPassword| >= MinPasswordLength) &&
      f.newPassword == f.confirmPassword)
  }

  function Entries(n: FieldName, message: Option<string>): seq<Entry> {
    if message.Some? then [Entry(KeyOf(n), message.value)] else []
  }

  /** The error record `validateForm` leaves: one entry per failing rule, in rule order. */
  function ErrorList(f: ProfileForm): seq<Entry> {
    Entries(Name, Rule(f, Name)) + (Entries(Email, Rule(f, Email)) +
    (Entries(CurrentPassword, Rule(f, CurrentPassword)) + (Entries(NewPassword, Rule(f, NewPassword)) +
    Entries(ConfirmPassword, Rule(f, ConfirmPassword)))))
  }

  lemma EntriesLookup(n: FieldName, message: Option<string>, rest: seq<Entry>, key: string)
    ensures Lookup(Entries(n, message) + rest, key) ==
      if message.Some? && key == KeyOf(n) then message else Lookup(rest, key)
  {
    if message.Some? {
      assert (Entries(n, message) + rest)[1..] == rest;
    } else {
      assert Entries(n, message) + rest == rest;
    }
  }

  /** The error recorded under each field is exactly what that field's rule says. */
  lemma ErrorLookup(f: ProfileForm, n: FieldName)
    ensures Lookup(ErrorList(f), KeyOf(n)) == Rule(f, n)
  {
    var key := KeyOf(n);
    var e5 := Entries(ConfirmPassword, Rule(f, ConfirmPassword));
    var e4 := Entries(NewPassword, Rule(f, NewPassword)) + e5;
    var e3 := Entries(CurrentPassword, Rule(f, CurrentPassword)) + e4;
    var e2 := Entries(Email, Rule(f, Email)) + e3;
    EntriesLookup(Name, Rule(f, Name), e2, key);
    EntriesLookup(Email, Rule(f, Email), e3, key);
    EntriesLookup(CurrentPassword, Rule(f, CurrentPassword), e4, key);
    EntriesLookup(NewPassword, Rule(f, NewPassword), e5, key);
    EntriesLookup(ConfirmPassword, Rule(f, ConfirmPassword), [], key);
  }

  /** The form is valid exactly when no error was recorded. */
  lemma NoErrorsIffAcceptable(f: ProfileForm)
    ensures ErrorList(f) == [] <==> Acceptable(f)
  {
  }

  /** A filled new password shorter than six characters is reported even with the right current password. */
  lemma ShortPasswordReported()
    ensures Rule(ProfileForm("Ada", "ada@x.io", "old", "abc", "abc"), NewPassword) == Some(PasswordTooShort)
  {
  }

  /** The pattern accepts more than addresses: it looks for a match anywhere in the text. */
  lemma EmailPatternNotAnchored()
    ensures EmailLike("my mail a@b.c please")
    ensures !EmailLike("a@b")
  {
    var s := "my mail a@b.c please";
    assert EmailAt(s, 9, 11);
  }

  /**
   * `validateForm`: each rule is evaluated and its message, if any, written into
   * a fresh record; the result is whether the record stayed empty.
   */
  method CollectErrors(f: ProfileForm) returns (errors: seq<Entry>, valid: bool)
    ensures errors == ErrorList(f)
    ensures valid <==> errors == []
  {
    errors := Fill(Rule(f, Name), Rule(f, Email), Rule(f, CurrentPassword),
      Rule(f, NewPassword), Rule(f, ConfirmPassword));
    valid := |errors| == 0;
  }

  /** The messages written one after another, in the order the rules run. */
  method Fill(name: Option<string>, email: Option<string>, current: Option<string>,
              short: Option<string>, mismatch: Option<string>)
    returns (errors: seq<Entry>)
    ensures errors == Entries(Name, name) + (Entries(Email, email) +
      (Entries(CurrentPassword, current) + (Entries(NewPassword, short) +
      Entries(ConfirmPassword, mismatch))))
  {
    ghost var a, b, c, d, e := Entries(Name, name), Entries(Email, email),
      Entries(CurrentPassword, current), Entries(NewPassword, short), Entries(ConfirmPassword, mismatch);
    errors := Record([], Name, name);
    assert errors == a;
    errors := Record(errors, Email, email);
    errors := Record(errors, CurrentPassword, current);
    errors := Record(errors, NewPassword, short);
    errors := Record(errors, ConfirmPassword, mismatch);
    assert errors == (((a + b) + c) + d) + e;
    AppendRight(a, b, c, d, e);
  }

  /** Regrouping five appended parts to the right. */
  lemma AppendRight<T>(a: seq<T>, b: seq<T>, c: seq<T>, d: seq<T>, e: seq<T>)
    ensures (((a + b) + c) + d) + e == a + (b + (c + (d + e)))
  {
  }

  /** The position of a field's rule in `validateForm`. */
  function Rank(n: FieldName): nat {
    match n
    case Name => 0
    case Email => 1
    case CurrentPassword => 2
    case NewPassword => 3
    case ConfirmPassword => 4
  }

  /** The rank of the field a key names; keys of no field rank last. */
  function KeyRank(key: string): (r: nat)
    ensures forall n :: key == KeyOf(n) ==> r == Rank(n)
  {
    if key == "name" then 0
    else if key == "email" then 1
    else if key == "currentPassword" then 2
    else if key == "newPassword" then 3
    else if key == "confirmPassword" then 4
    else 5
  }

  /** Every entry so far belongs to a rule that runs before rank `r`. */
  predicate Below(errors: seq<Entry>, r: nat) {
    forall i :: 0 <= i < |errors| ==> KeyRank(errors[i].key) < r
  }

  /** `errors[field] = message` when the field's rule produced one; only earlier rules have written so far. */
  method Record(errors: seq<Entry>, n: FieldName, message: Option<string>) returns (next: seq<Entry>)
    requires Below(errors, Rank(n))
    ensures next == errors + Entries(n, message)
    ensures Below(next, Rank(n) + 1)
  {
    next := errors;
    if message.Some? {
      AssignedFresh(errors, KeyOf(n), message.value);
      next := Assigned(errors, KeyOf(n), message.value);
    }
  }

  // ---------------------------------------------------------------------
  // The profile update
  // ---------------------------------------------------------------------

  /** The object sent to `updateProfile`: the password pair only when both are given. */
  function UpdateData(f: ProfileForm): seq<Entry> {
    [Entry("name", f.name), Entry("email", f.email)] +
    (if f.currentPassword != "" && f.newPassword != ""
     then [Entry("currentPassword", f.currentPassword), Entry("password", f.newPassword)]
     else [])
  }

  /** The new password is sent exactly when both password fields are filled, and then as typed. */
  lemma PasswordSentOnlyWithBoth(f: ProfileForm)
    ensures HasKey(UpdateData(f), "password") <==> f.currentPassword != "" && f.newPassword != ""
    ensures f.currentPassword != "" && f.newPassword != "" ==>
      Lookup(UpdateData(f), "password") == Some(f.newPassword)
  {
    var d := UpdateData(f);
    if f.currentPassword != "" && f.newPassword != "" {
      assert d[1..][1..][1..] == [Entry("password", f.newPassword)];
      assert d[3].key == "password";
    } else {
      assert |d| == 2;
    }
  }

  /** What the awaited `updateProfile(...)` reported. */
  datatype UpdateResult = UpdateResult(success: bool, error: Option<string>)

  /** `delete newErrors[name]` when the field has a (truthy) error. */
  function ClearedError(errors: seq<Entry>, key: string): seq<Entry> {
    var current := Lookup(errors, key);
    if current.Some? && current.value != "" then Deleted(errors, key) else errors
  }

  predicate MessagesGiven(errors: seq<Entry>) {
    forall i :: 0 <= i < |errors| ==> errors[i].value != ""
  }

  /** Editing a field removes only that field's error. */
  lemma ClearedErrorOnlyThatField(errors: seq<Entry>, key: string, other: string)
    requires MessagesGiven(errors)
    ensures Lookup(ClearedError(errors, key), key) == None
    ensures other != key ==> Lookup(ClearedError(errors, key), other) == Lookup(errors, other)
  {
    LookupDeleted(errors, key, other);
    var current := Lookup(errors, key);
    if current.Some? {
      var i :| 0 <= i < |errors| && errors[i] == Entry(key, current.value);
      assert current.value != "";
    }
  }

  class AccountPage {
    var form: ProfileForm
    var errors: seq<Entry>
    var updateSuccess: bool

    constructor()
      ensures form == BlankForm && errors == [] && !updateSuccess
    {
      form := BlankForm;
      errors := [];
      updateSuccess := false;
    }

    /** `handleChange`: the field takes the value, its error goes, and the success note is hidden. */
    method Change(n: FieldName, value: string)
      modifies this
      ensures form == With(old(form), n, value)
      ensures errors == ClearedError(old(errors), KeyOf(n))
      ensures !updateSuccess
    {
      form := With(form, n, value);
      var current := Lookup(errors, KeyOf(n));
      if current.Some? && current.value != "" {
        errors := Deleted(errors, KeyOf(n));
      }
      if updateSuccess {
        updateSuccess := false;
      }
    }

    /**
     * `handleProfileSubmit`: validation replaces the error record; a valid form
     * is sent, and the reply either clears the password fields and shows
     * success or records a form-level error.
     */
    method Submit(result: UpdateResult) returns (sent: Option<seq<Entry>>)
      modifies this
      ensures !Acceptable(old(form)) ==>
        sent.None? && errors == ErrorList(old(form)) &&
        form == old(form) && updateSuccess == old(updateSuccess)
      ensures Acceptable(old(form)) ==> sent == Some(UpdateData(old(form)))
      ensures Acceptable(old(form)) && result.success ==>
        updateSuccess && errors == [] &&
        form == old(form).(currentPassword := "", newPassword := "", confirmPassword := "")
      ensures Acceptable(old(form)) && !result.success ==>
        form == old(form) && updateSuccess == old(updateSuccess) &&
        errors == (if result.error.Some? && result.error.value != ""
                   then [Entry("form", result.error.value)] else [])
    {
      var collected, valid := CollectErrors(form);
      NoErrorsIffAcceptable(form);
      errors := collected;
      if !valid {
        return None;
      }
      sent := Some(UpdateData(form));
      Settle(result);
    }

    /** What the reply to a sent update does to a page whose error record is empty. */
    method Settle(result: UpdateResult)
      modifies this
      requires errors == []
      ensures result.success ==>
        updateSuccess && errors == [] &&
        form == old(form).(currentPassword := "", newPassword := "", confirmPassword := "")
      ensures !result.success ==>
        form == old(form) && updateSuccess == old(updateSuccess) &&
        errors == (if result.error.Some? && result.error.value != ""
                   then [Entry("form", result.error.value)] else [])
    {
      if result.success {
        updateSuccess := true;
        form := form.(currentPassword := "", newPassword := "", confirmPassword := "");
      } else if result.error.Some? && result.error.value != "" {
        errors := Assigned(errors, "form", result.error.value);
      }
    }
  }
}
