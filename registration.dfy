/**
 * Registration input checks: the key/value registration form and the account
 * validator. Strings are never null here, so string.IsNullOrWhiteSpace is the
 * all-whitespace test; DateTime values are tick counts.
 */
module Registration {
  import opened Sequences
  import opened DateTimes


  /** char.IsWhiteSpace: the Unicode space separators, line and paragraph separators, and U+0009-U+000D, U+0085. */
  predicate IsWhiteSpace(c: char) {
    || c == ' '
    || ('\t' <= c <= '\r')
    || c == '\U{85}'
    || c == '\U{A0}'
    || c == '\U{1680}'
    || ('\U{2000}' <= c <= '\U{200A}')
    || c == '\U{2028}'
    || c == '\U{2029}'
    || c == '\U{202F}'
    || c == '\U{205F}'
    || c == '\U{3000}'
  }

  /** string.IsNullOrWhiteSpace on a non-null string: empty or whitespace only. */
  predicate IsNullOrWhiteSpace(s: string) {
    forall i :: 0 <= i < |s| ==> IsWhiteSpace(s[i])
  }

  /** The fields ValidateInformation insists on, in the order it checks them. */
  const RequiredFields: seq<string> := ["Name", "Email", "PhoneNumber", "DateOfBirth"]

  /** A detail counts as given when its key is present with a value that is not blank. */
  predicate Given(details: map<string, string>, field: string) {
    field in details && !IsNullOrWhiteSpace(details[field])
  }

  class RegistrationForm {
    const FormID: int
    var PatientDetails: map<string, string>

    constructor (formID: int)
      ensures FormID == formID && PatientDetails == map[]
    {
      FormID := formID;
      PatientDetails := map[];
    }

    /**
     * Inserts or overwrites one detail. A blank key or value is refused and the
     * form is unchanged; otherwise key maps to value, every other key keeps its
     * value, and the number of keys grows only when key is new.
     */
    method AddPatientDetail(key: string, value: string)
      modifies this`PatientDetails
      ensures IsNullOrWhiteSpace(key) || IsNullOrWhiteSpace(value) ==> PatientDetails == old(PatientDetails)
      ensures !IsNullOrWhiteSpace(key) && !IsNullOrWhiteSpace(value) ==>
        && key in PatientDetails && PatientDetails[key] == value
        && PatientDetails.Keys == old(PatientDetails).Keys + {key}
        && (forall k :: k in old(PatientDetails) && k != key ==> PatientDetails[k] == old(PatientDetails)[k])
        && |PatientDetails| == |old(PatientDetails)| + (if key in old(PatientDetails) then 0 else 1)
    {
      if IsNullOrWhiteSpace(key) || IsNullOrWhiteSpace(value) {
        return;
      }
      if key in PatientDetails {
        PatientDetails := PatientDetails[key := value];
      } else {
        assert (PatientDetails[key := value]).Keys == PatientDetails.Keys + {key};
        PatientDetails := PatientDetails[key := value];
      }
    }

    /** True exactly when every required field is present with a non-blank value; stops at the first that is not. */
    method ValidateInformation() returns (valid: bool)
      ensures valid <==> forall i :: 0 <= i < |RequiredFields| ==> Given(PatientDetails, RequiredFields[i])
    {
      var requiredFields := RequiredFields;
      var n := 0;
      while n < |requiredFields|
        invariant 0 <= n <= |requiredFields|
        invariant forall i :: 0 <= i < n ==> Given(PatientDetails, requiredFields[i])
      {
        var field := requiredFields[n];
        if !(field in PatientDetails) || IsNullOrWhiteSpace(PatientDetails[field]) {
          return false;
        }
        n := n + 1;
      }
      return true;
    }
  }

  const EmailEmpty: string := "Email cannot be empty."
  const PasswordEmpty: string := "Password cannot be empty."
  const PasswordMismatch: string := "Passwords do not match."
  const FirstNameEmpty: string := "First name cannot be empty."
  const LastNameEmpty: string := "Last name cannot be empty."
  const PhoneEmpty: string := "Phone number cannot be empty."
  const InvalidDateOfBirth: string := "Invalid date of birth."

  /** The account checks' messages, in the order the checks run. */
  const AccountMessages: seq<string> :=
    [EmailEmpty, PasswordEmpty, PasswordMismatch, FirstNameEmpty, LastNameEmpty, PhoneEmpty, InvalidDateOfBirth]

  /** Which account checks fail, in the order of AccountMessages. */
  function FailedChecks(email: string, password: string, confirmPassword: string, firstName: string,
                        lastName: string, phone: string, dob: int): (failed: seq<bool>)
  {
    [ IsNullOrWhiteSpace(email), IsNullOrWhiteSpace(password), password != confirmPassword,
      IsNullOrWhiteSpace(firstName), IsNullOrWhiteSpace(lastName), IsNullOrWhiteSpace(phone),
      dob == MinValue ]
  }

  /** The one-message list of a failed check, the empty list of a passed one. */
  function Flag(failed: bool, message: string): seq<string> {
    if failed then [message] else []
  }

  /** The messages whose flag is set, keeping their order (reference reading of the error list). */
  function Selected(messages: seq<string>, flags: seq<bool>): seq<string>
    requires |messages| == |flags|
    decreases |messages|
  {
    if messages == [] then []
    else Selected(messages[..|messages| - 1], flags[..|flags| - 1]) + Flag(flags[|flags| - 1], messages[|messages| - 1])
  }

  /**
   * Runs every account check in a fixed order, collecting one message per
   * failed check; the flag is true exactly when no message was collected.
   */
  function ValidateAccountDetails(email: string, password: string, confirmPassword: string, firstName: string,
                                  lastName: string, phone: string, dob: int): (result: (bool, seq<string>))
    ensures result.0 <==> result.1 == []
    ensures PasswordMismatch in result.1 <==> password != confirmPassword
    ensures |result.1| <= |AccountMessages|
  {
    var errors :=
      Flag(IsNullOrWhiteSpace(email), EmailEmpty)
      + Flag(IsNullOrWhiteSpace(password), PasswordEmpty)
      + Flag(password != confirmPassword, PasswordMismatch)
      + Flag(IsNullOrWhiteSpace(firstName), FirstNameEmpty)
      + Flag(IsNullOrWhiteSpace(lastName), LastNameEmpty)
      + Flag(IsNullOrWhiteSpace(phone), PhoneEmpty)
      + Flag(dob == MinValue, InvalidDateOfBirth);
    (|errors| == 0, errors)
  }

  /** Selected over seven checks is the concatenation of their one-message lists, in order. */
  lemma SelectedSeven(m: seq<string>, f: seq<bool>)
    requires |m| == |f| == 7
    ensures Selected(m, f) == Flag(f[0], m[0]) + Flag(f[1], m[1]) + Flag(f[2], m[2]) + Flag(f[3], m[3])
                              + Flag(f[4], m[4]) + Flag(f[5], m[5]) + Flag(f[6], m[6])
  {
    assert m[..7] == m && f[..7] == f;
    assert Selected(m[..1], f[..1]) == Flag(f[0], m[0]);
    assert m[..2][..1] == m[..1] && f[..2][..1] == f[..1];
    assert Selected(m[..2], f[..2]) == Selected(m[..1], f[..1]) + Flag(f[1], m[1]);
    assert m[..3][..2] == m[..2] && f[..3][..2] == f[..2];
    assert Selected(m[..3], f[..3]) == Selected(m[..2], f[..2]) + Flag(f[2], m[2]);
    assert m[..4][..3] == m[..3] && f[..4][..3] == f[..3];
    assert Selected(m[..4], f[..4]) == Selected(m[..3], f[..3]) + Flag(f[3], m[3]);
    assert m[..5][..4] == m[..4] && f[..5][..4] == f[..4];
    assert Selected(m[..5], f[..5]) == Selected(m[..4], f[..4]) + Flag(f[4], m[4]);
    assert m[..6][..5] == m[..5] && f[..6][..5] == f[..5];
    assert Selected(m[..6], f[..6]) == Selected(m[..5], f[..5]) + Flag(f[5], m[5]);
    assert m[..7][..6] == m[..6] && f[..7][..6] == f[..6];
    assert Selected(m[..7], f[..7]) == Selected(m[..6], f[..6]) + Flag(f[6], m[6]);
  }

  /** The error list is exactly the messages of the failed checks, in check order. */
  lemma AccountErrorsFollowChecks(email: string, password: string, confirmPassword: string, firstName: string,
                                  lastName: string, phone: string, dob: int)
    ensures ValidateAccountDetails(email, password, confirmPassword, firstName, lastName, phone, dob).1
         == Selected(AccountMessages, FailedChecks(email, password, confirmPassword, firstName, lastName, phone, dob))
  {
    SelectedSeven(AccountMessages, FailedChecks(email, password, confirmPassword, firstName, lastName, phone, dob));
  }

  /** Selected keeps only given messages. */
  lemma {:induction false} SelectedFrom(m: seq<string>, f: seq<bool>, x: string)
    requires |m| == |f|
    ensures x in Selected(m, f) ==> x in m
    decreases |m|
  {
    if m != [] {
      SelectedFrom(m[..|m| - 1], f[..|f| - 1], x);
      assert x in m[..|m| - 1] ==> x in m;
    }
  }

  /** With distinct messages, a message is selected exactly when its own flag is set. */
  lemma {:induction false} SelectedMember(m: seq<string>, f: seq<bool>, k: nat)
    requires |m| == |f| && Distinct(m) && k < |m|
    ensures m[k] in Selected(m, f) <==> f[k]
    decreases |m|
  {
    var n := |m| - 1;
    var mi, fi := m[..n], f[..n];
    if k == n {
      SelectedFrom(mi, fi, m[k]);
    } else {
      assert mi[k] == m[k] && fi[k] == f[k];
      SelectedMember(mi, fi, k);
      assert m[k] != m[n];
    }
  }

  /** Each check's message is in the error list exactly when that check fails. */
  lemma AccountMessageIffCheckFails(email: string, password: string, confirmPassword: string, firstName: string,
                                    lastName: string, phone: string, dob: int, k: nat)
    requires k < |AccountMessages|
    ensures AccountMessages[k] in ValidateAccountDetails(email, password, confirmPassword, firstName, lastName, phone, dob).1
        <==> FailedChecks(email, password, confirmPassword, firstName, lastName, phone, dob)[k]
  {
    AccountErrorsFollowChecks(email, password, confirmPassword, firstName, lastName, phone, dob);
    SelectedMember(AccountMessages, FailedChecks(email, password, confirmPassword, firstName, lastName, phone, dob), k);
  }

  /** Account creation succeeds exactly when every field is given, the passwords agree and a birth date is set. */
  function CreateAccount(email: string, password: string, confirmPassword: string, firstName: string,
                         lastName: string, phone: string, dob: int): (created: bool)
    ensures created <==>
      && !IsNullOrWhiteSpace(email) && !IsNullOrWhiteSpace(password) && password == confirmPassword
      && !IsNullOrWhiteSpace(firstName) && !IsNullOrWhiteSpace(lastName) && !IsNullOrWhiteSpace(phone)
      && dob != MinValue
  {
    ValidateAccountDetails(email, password, confirmPassword, firstName, lastName, phone, dob).0
  }
}
