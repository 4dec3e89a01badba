/**
 * The settings page: profile validation, per-field error clearing, the
 * preference list (add without duplicates, remove every occurrence) and the
 * update payload.
 */
module Settings {
  import opened Common
  import opened JsString

  const FirstNameRequired := "First name is required"
  const LastNameRequired := "Last name is required"
  const PhoneDigits := "Phone number should be 10-15 digits"
  const PasswordLength := "Password should be at least 6 characters"

  /** `\d` of a JavaScript regular expression: `[0-9]` in ECMAScript, whatever the flags. */
  predicate IsDigit(c: char)
  {
    '0' <= c <= '9'
  }

  /** `/^\d{10,15}$/.test(phone)` */
  predicate PhoneMatches(phone: string)
  {
    10 <= |phone| <= 15 && forall k :: 0 <= k < |phone| ==> IsDigit(phone[k])
  }

  /**
   * `validateInputs`' error map: first and last name are required once
   * trimmed; a phone, when given, must be 10 to 15 digits; a password, when
   * given, at least 6 characters. An empty phone or password is accepted.
   */
  function ValidationErrors(firstName: string, lastName: string, phone: string, password: string)
    : (errors: map<string, string>)
    ensures "firstName" in errors <==> Trim(firstName) == ""
    ensures "lastName" in errors <==> Trim(lastName) == ""
    ensures "phone" in errors <==> phone != "" && !PhoneMatches(phone)
    ensures "password" in errors <==> password != "" && |password| < 6
    ensures errors.Keys <= {"firstName", "lastName", "phone", "password"}
    ensures "firstName" in errors ==> errors["firstName"] == FirstNameRequired
    ensures "lastName" in errors ==> errors["lastName"] == LastNameRequired
    ensures "phone" in errors ==> errors["phone"] == PhoneDigits
    ensures "password" in errors ==> errors["password"] == PasswordLength
  {
    var e0: map<string, string> := map[];
    var e1 := if Trim(firstName) == "" then e0["firstName" := FirstNameRequired] else e0;
    var e2 := if Trim(lastName) == "" then e1["lastName" := LastNameRequired] else e1;
    var e3 := if phone != "" && !PhoneMatches(phone) then e2["phone" := PhoneDigits] else e2;
    var e4 := if password != "" && |password| < 6 then e3["password" := PasswordLength] else e3;
    e4
  }

  /** The inputs pass exactly when no rule fires. */
  lemma ValidationPasses(firstName: string, lastName: string, phone: string, password: string)
    ensures |ValidationErrors(firstName, lastName, phone, password)| == 0 <==>
      && Trim(firstName) != "" && Trim(lastName) != ""
      && (phone == "" || PhoneMatches(phone))
      && (password == "" || |password| >= 6)
  {
    var errors := ValidationErrors(firstName, lastName, phone, password);
    if |errors| != 0 {
      var key :| key in errors;
      assert key in {"firstName", "lastName", "phone", "password"};
    }
  }

  /** No duplicates in a list of strings. */
  predicate Distinct(s: seq<string>)
  {
    forall i, j :: 0 <= i < j < |s| ==> s[i] != s[j]
  }

  /**
   * The preference list after `handleAddPreference`: the selected category
   * is appended when it is non-empty and not yet listed.
   */
  function WithPreference(preferences: seq<string>, selected: string): seq<string>
  {
    if selected != "" && selected !in preferences then preferences + [selected] else preferences
  }

  /** Adding never introduces a duplicate, and never drops or reorders what was there. */
  lemma AddKeepsDistinct(preferences: seq<string>, selected: string)
    requires Distinct(preferences)
    ensures Distinct(WithPreference(preferences, selected))
    ensures WithPreference(preferences, selected)[..|preferences|] == preferences
    ensures selected != "" ==> selected in WithPreference(preferences, selected)
  {
    var r := WithPreference(preferences, selected);
    if selected != "" && selected !in preferences {
      forall i, j | 0 <= i < j < |r| ensures r[i] != r[j] {
        if j == |preferences| {
          assert r[i] == preferences[i];
        }
      }
      assert r[|preferences|] == selected;
    }
  }

  /** `preferences.filter(pref => pref !== preference)` */
  function WithoutPreference(preferences: seq<string>, preference: string): (r: seq<string>)
    ensures |r| <= |preferences|
  {
    if preferences == [] then []
    else
      var rest := WithoutPreference(preferences[1..], preference);
      if preferences[0] == preference then rest else [preferences[0]] + rest
  }

  /** Removal drops every occurrence and nothing else: the counts of other values are unchanged. */
  lemma {:induction false} RemoveCounts(preferences: seq<string>, preference: string)
    ensures multiset(WithoutPreference(preferences, preference)) == multiset(preferences)[preference := 0]
  {
    if preferences != [] {
      RemoveCounts(preferences[1..], preference);
      assert preferences == [preferences[0]] + preferences[1..];
    }
  }

  /** Removal keeps the order of what remains: it distributes over concatenation. */
  lemma {:induction false} RemoveAppend(a: seq<string>, b: seq<string>, preference: string)
    ensures WithoutPreference(a + b, preference) == WithoutPreference(a, preference) + WithoutPreference(b, preference)
  {
    if a == [] {
      assert a + b == b;
    } else {
      assert (a + b)[0] == a[0];
      assert (a + b)[1..] == a[1..] + b;
      RemoveAppend(a[1..], b, preference);
    }
  }

  /** A duplicate-free list stays duplicate-free after a removal. */
  lemma RemoveKeepsDistinct(preferences: seq<string>, preference: string)
    requires Distinct(preferences)
    ensures Distinct(WithoutPreference(preferences, preference))
  {
    var r := WithoutPreference(preferences, preference);
    RemoveCounts(preferences, preference);
    forall x ensures multiset(r)[x] <= 1 {
      DistinctCountsOne(preferences, x);
    }
    CountsOneDistinct(r);
  }

  lemma CountsOneDistinct(s: seq<string>)
    requires forall x :: multiset(s)[x] <= 1
    ensures Distinct(s)
  {
    forall i, j | 0 <= i < j < |s| ensures s[i] != s[j] {
      TwoOccurrences(s, i, j);
    }
  }

  lemma TwoOccurrences(s: seq<string>, i: nat, j: nat)
    requires i < j < |s|
    ensures s[i] == s[j] ==> multiset(s)[s[i]] >= 2
  {
    assert s == s[..i] + [s[i]] + s[i + 1..j] + [s[j]] + s[j + 1..];
  }

  lemma {:induction false} DistinctCountsOne(s: seq<string>, x: string)
    requires Distinct(s)
    ensures multiset(s)[x] <= 1
  {
    if s != [] {
      DistinctCountsOne(s[1..], x);
      assert s == [s[0]] + s[1..];
      if s[0] == x {
        assert x !in s[1..] by {
          forall k | 0 <= k < |s[1..]| ensures s[1..][k] != x {
            assert s[1..][k] == s[k + 1];
          }
        }
      }
    }
  }

  /** The body of `POST /auth/update`. */
  datatype UpdateData = UpdateData(
    firstName: string,
    lastName: string,
    phone: string,
    dob: string,
    preferences: seq<string>,
    password: string)

  /** The fields of the form that clear their own error entry when edited. */
  datatype SettingsField = FirstNameField | LastNameField | PhoneField | PasswordField

  function FieldKey(f: SettingsField): string
  {
    match f
    case FirstNameField => "firstName"
    case LastNameField => "lastName"
    case PhoneField => "phone"
    case PasswordField => "password"
  }

  /** A payload sent after a passing validation carries non-blank, trimmed names. */
  lemma SubmittedNamesPresent(firstName: string, lastName: string, phone: string, password: string)
    requires |ValidationErrors(firstName, lastName, phone, password)| == 0
    ensures Trim(firstName) != "" && IsTrimmed(Trim(firstName))
    ensures Trim(lastName) != "" && IsTrimmed(Trim(lastName))
  {
    ValidationPasses(firstName, lastName, phone, password);
    TrimShape(firstName);
    TrimShape(lastName);
  }

  class SettingsPage {
    var firstName: string
    var lastName: string
    var phone: string
    var dob: string
    var preferences: seq<string>
    var selectedCategory: string
    var password: string
    var errors: map<string, string>
    /** The bodies posted to `/auth/update`, oldest first. */
    var sent: seq<UpdateData>

    constructor ()
      ensures firstName == "" && lastName == "" && phone == "" && dob == "" && password == ""
      ensures preferences == [] && selectedCategory == "" && errors == map[] && sent == []
    {
      firstName, lastName, phone, dob, password := "", "", "", "", "";
      preferences := [];
      selectedCategory := "";
      errors := map[];
      sent := [];
    }

    /** `validateInputs`: the error map is replaced wholesale; the result says whether it is empty. */
    method ValidateInputs() returns (ok: bool)
      modifies this`errors
      ensures errors == ValidationErrors(firstName, lastName, phone, password)
      ensures ok <==> |errors| == 0
    {
      var validation := ValidationErrors(firstName, lastName, phone, password);
      ok := |validation| == 0;
      errors := validation;
    }

    /** `handleFieldChange`: set the field and clear its error entry, leaving the others. */
    method HandleFieldChange(field: SettingsField, value: string)
      modifies this`firstName, this`lastName, this`phone, this`password, this`errors
      ensures errors == old(errors)[FieldKey(field) := ""]
      ensures firstName == (if field == FirstNameField then value else old(firstName))
      ensures lastName == (if field == LastNameField then value else old(lastName))
      ensures phone == (if field == PhoneField then value else old(phone))
      ensures password == (if field == PasswordField then value else old(password))
    {
      match field {
        case FirstNameField => firstName := value;
        case LastNameField => lastName := value;
        case PhoneField => phone := value;
        case PasswordField => password := value;
      }
      errors := errors[FieldKey(field) := ""];
    }

    /** The date input sets `dob` and touches no error entry. */
    method SetDob(value: string)
      modifies this`dob
      ensures dob == value
    {
      dob := value;
    }

    method SelectCategory(value: string)
      modifies this`selectedCategory
      ensures selectedCategory == value
    {
      selectedCategory := value;
    }

    /**
     * `handleAddPreference`: a non-empty, not yet listed selection is
     * appended and the selection reset; otherwise nothing changes.
     */
    method HandleAddPreference()
      modifies this`preferences, this`selectedCategory
      ensures preferences == WithPreference(old(preferences), old(selectedCategory))
      ensures selectedCategory ==
        if old(selectedCategory) != "" && old(selectedCategory) !in old(preferences) then "" else old(selectedCategory)
    {
      if selectedCategory != "" && selectedCategory !in preferences {
        preferences := preferences + [selectedCategory];
        selectedCategory := "";
      }
    }

    /** `handleRemovePreference` */
    method HandleRemovePreference(preference: string)
      modifies this`preferences
      ensures preferences == WithoutPreference(old(preferences), preference)
    {
      preferences := WithoutPreference(preferences, preference);
    }

    /**
     * `handleSubmit`: nothing is sent when validation fails; otherwise one
     * payload goes out with the names trimmed and the other fields as they are.
     */
    method HandleSubmit()
      modifies this`errors, this`sent
      ensures errors == ValidationErrors(firstName, lastName, phone, password)
      ensures |errors| > 0 ==> sent == old(sent)
      ensures |errors| == 0 ==>
        sent == old(sent) + [UpdateData(Trim(firstName), Trim(lastName), phone, dob, preferences, password)]
    {
      var ok := ValidateInputs();
      if !ok {
        return;
      }
      sent := sent + [UpdateData(Trim(firstName), Trim(lastName), phone, dob, preferences, password)];
    }
  }
}
