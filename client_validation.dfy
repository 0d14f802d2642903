/**
 * The sign-up form's client-side checks (static/js/authentication.js): the
 * email and phone validators, the username check, what the availability
 * lookup sends, and the outline state of the two password fields.
 */
module ClientValidation {
  import opened Wrappers
  import opened Text

  /** The object a validator returns: `valid`, an optional `message`, and for phones `cleaned`. */
  datatype Verdict = Verdict(valid: bool, message: Option<string>, cleaned: Option<string>)

  /** A character of the class `[^\s@]`. */
  predicate IsEmailChar(c: char) {
    !IsJsSpace(c) && c != '@'
  }

  /**
   * The language of `^[^\s@]+@[^\s@]+\.[^\s@]+$`: a non-empty local part,
   * one '@', then a domain with a '.' that has text on both sides, and no
   * whitespace or other '@' anywhere.
   */
  ghost predicate MatchesEmailPattern(v: string) {
    exists at, dot :: 0 < at && at + 1 < dot < |v| - 1 && v[at] == '@' && v[dot] == '.'
      && forall i :: 0 <= i < |v| && i != at ==> IsEmailChar(v[i])
  }

  /** The first position of `c` in `s`. */
  function FindChar(s: string, c: char): (r: Option<nat>)
    ensures r.Some? ==> r.value < |s| && s[r.value] == c && forall i :: 0 <= i < r.value ==> s[i] != c
    ensures r.None? <==> forall i :: 0 <= i < |s| ==> s[i] != c
  {
    if s == [] then None
    else if s[0] == c then Some(0)
    else match FindChar(s[1..], c)
      case None => None
      case Some(i) => Some(i + 1)
  }

  /** The regular expression's test, scanning for the '@' and then for an inner '.'. */
  predicate EmailShape(v: string) {
    && (forall i :: 0 <= i < |v| ==> !IsJsSpace(v[i]))
    && match FindChar(v, '@')
       case None => false
       case Some(at) =>
         var domain := v[at + 1..];
         && 0 < at
         && FindChar(domain, '@').None?
         && |domain| >= 3
         && FindChar(domain[1..|domain| - 1], '.').Some?
  }

  lemma EmailShapeMatches(v: string)
    requires EmailShape(v)
    ensures MatchesEmailPattern(v)
  {
    var at := FindChar(v, '@').value;
    var domain := v[at + 1..];
    var j := FindChar(domain[1..|domain| - 1], '.').value;
    var dot := at + 2 + j;
    assert v[dot] == '.';
    forall i | 0 <= i < |v| && i != at ensures IsEmailChar(v[i]) {
      if i > at {
        assert domain[i - at - 1] == v[i];
      }
    }
  }

  lemma FindCharAt(s: string, c: char, k: nat)
    requires k < |s| && s[k] == c
    requires forall i :: 0 <= i < |s| && i != k ==> s[i] != c
    ensures FindChar(s, c) == Some(k)
  {
  }

  /** The positions of the '@' and of an inner '.' of a matching address, and what the pattern says of the rest. */
  lemma PatternWitness(v: string) returns (at: nat, dot: nat)
    requires MatchesEmailPattern(v)
    ensures 0 < at && at + 1 < dot < |v| - 1 && v[at] == '@' && v[dot] == '.'
    ensures forall i :: 0 <= i < |v| ==> !IsJsSpace(v[i])
    ensures forall i :: 0 <= i < |v| && i != at ==> v[i] != '@'
  {
    at, dot :| 0 < at && at + 1 < dot < |v| - 1 && v[at] == '@' && v[dot] == '.'
      && forall i :: 0 <= i < |v| && i != at ==> IsEmailChar(v[i]);
  }

  lemma PatternHasEmailShape(v: string, at: nat, dot: nat)
    requires 0 < at && at + 1 < dot < |v| - 1 && v[at] == '@' && v[dot] == '.'
    requires forall i :: 0 <= i < |v| ==> !IsJsSpace(v[i])
    requires forall i :: 0 <= i < |v| && i != at ==> v[i] != '@'
    ensures EmailShape(v)
  {
    FindCharAt(v, '@', at);
    var domain := v[at + 1..];
    assert forall i :: 0 <= i < |domain| ==> domain[i] == v[at + 1 + i];
    var inner := domain[1..|domain| - 1];
    assert inner[dot - at - 2] == '.';
  }

  /** The scan accepts exactly the strings the regular expression matches. */
  lemma EmailShapeIsPattern(v: string)
    ensures EmailShape(v) <==> MatchesEmailPattern(v)
  {
    if EmailShape(v) {
      EmailShapeMatches(v);
    }
    if MatchesEmailPattern(v) {
      var at, dot := PatternWitness(v);
      PatternHasEmailShape(v, at, dot);
    }
  }

  /** defaultValidateEmail. */
  function ValidateEmail(value: string): (r: Verdict)
    ensures Trim(value, JsWhitespace) == [] ==> r == Verdict(false, Some(""), None)
    ensures r.valid <==> MatchesEmailPattern(Trim(value, JsWhitespace))
    ensures r.valid ==> r.message.None? && r.cleaned.None?
  {
    var v := Trim(value, JsWhitespace);
    EmailShapeIsPattern(v);
    if |v| == 0 then Verdict(false, Some(""), None)
    else if !EmailShape(v) then Verdict(false, Some("Enter a valid email address."), None)
    else Verdict(true, None, None)
  }

  /** A string that passes has no whitespace, so it is its own trimmed form. */
  lemma EmailHasNoSpace(v: string)
    requires MatchesEmailPattern(v)
    ensures forall i :: 0 <= i < |v| ==> !IsJsSpace(v[i])
  {
  }

  /** defaultValidatePhone: 10 to 15 ASCII digits, with the digits as the cleaned value. */
  function ValidatePhone(value: string): (r: Verdict)
    ensures Trim(value, JsWhitespace) == [] ==> r == Verdict(false, Some(""), None)
    ensures r.valid <==> 10 <= DigitCount(value) <= 15
    ensures r.valid ==> r.cleaned == Some(DigitsOf(value)) && r.message.None?
  {
    var v := Trim(value, JsWhitespace);
    var digits := DigitsOf(v);
    DigitsOfTrim(value);
    DigitsOfLength(value);
    if |v| == 0 then Verdict(false, Some(""), None)
    else if |digits| < 10 || |digits| > 15 then Verdict(false, Some("Phone must be 10\U{2013}15 digits."), None)
    else Verdict(true, None, Some(digits))
  }

  /** The username check: anything that is not blank. */
  function ValidateUsername(value: string): (r: Verdict)
    ensures r.valid <==> exists i :: 0 <= i < |value| && !IsJsSpace(value[i])
    ensures r.message.None? && r.cleaned.None?
  {
    Verdict(Trim(value, JsWhitespace) != [], None, None)
  }

  /** The three fields that get an availability lookup. */
  datatype Field = Username | Email | Phone

  function Validate(field: Field, v: string): Verdict {
    match field
    case Username => ValidateUsername(v)
    case Email => ValidateEmail(v)
    case Phone => ValidatePhone(v)
  }

  /** What setupCheck does with an input value once the debounce fires. */
  datatype FieldState = Cleared | Rejected(message: string) | Lookup(param: string)

  /**
   * setupCheck's handler: a blank value clears the feedback, an invalid one
   * shows the validator's message, a valid one is looked up by its cleaned
   * form, or by the trimmed value when there is none.
   */
  function CheckField(field: Field, value: string): (r: FieldState)
    ensures r.Cleared? <==> Trim(value, JsWhitespace) == []
    ensures r.Lookup? ==> Validate(field, Trim(value, JsWhitespace)).valid
    ensures r.Rejected? ==> !Validate(field, Trim(value, JsWhitespace)).valid
  {
    var v := Trim(value, JsWhitespace);
    if v == [] then Cleared
    else
      var result := Validate(field, v);
      if !result.valid then Rejected(result.message.GetOr(""))
      else Lookup(if result.cleaned.Some? && result.cleaned.value != [] then result.cleaned.value else v)
  }

  /** A phone number is looked up by its 10 to 15 digits alone. */
  lemma PhoneLookupSendsDigits(value: string)
    ensures CheckField(Phone, value).Lookup? <==> 10 <= DigitCount(value) <= 15
    ensures CheckField(Phone, value).Lookup? ==>
      && CheckField(Phone, value).param == DigitsOf(value)
      && 10 <= |CheckField(Phone, value).param| <= 15
  {
    var v := Trim(value, JsWhitespace);
    DigitsOfTrim(value);
    DigitsOfLength(value);
    DigitsOfLength(v);

  }

  /** An email is looked up by the trimmed value, which matches the pattern. */
  lemma EmailLookupSendsTrimmed(value: string)
    ensures CheckField(Email, value).Lookup? <==> MatchesEmailPattern(Trim(value, JsWhitespace))
    ensures CheckField(Email, value).Lookup? ==> CheckField(Email, value).param == Trim(value, JsWhitespace)
  {
    TrimIdempotent(value, JsWhitespace);
  }

  /** A non-blank username is always looked up, as it was typed apart from the trimming. */
  lemma UsernameNeverRejected(value: string)
    ensures !CheckField(Username, value).Rejected?
    ensures CheckField(Username, value).Lookup? ==> CheckField(Username, value).param == Trim(value, JsWhitespace)
  {
    var v := Trim(value, JsWhitespace);
    if v != [] {
      assert !IsJsSpace(v[0]);
    }
  }

  /** The outline a password field gets from validatePasswords. */
  datatype Outline = Plain | ErrorOutline | AvailableOutline

  /** The first password: an error while it is shorter than eight characters but not empty. */
  function FirstPasswordOutline(v1: string): (r: Outline)
    ensures r == ErrorOutline <==> 0 < |v1| < 8
    ensures r != AvailableOutline
  {
    if |v1| > 0 && |v1| < 8 then ErrorOutline else Plain
  }

  /** The confirmation: an error when it differs, available when it matches a long enough first password. */
  function ConfirmOutline(v1: string, v2: string): (r: Outline)
    ensures r == ErrorOutline <==> v2 != [] && v2 != v1
    ensures r == AvailableOutline <==> v2 != [] && v2 == v1 && |v1| >= 8
  {
    if |v2| > 0 && v2 != v1 then ErrorOutline
    else if |v2| > 0 && v2 == v1 && |v1| >= 8 then AvailableOutline
    else Plain
  }

  /** The two outlines never disagree: a confirmation shown as available has a first password shown without error. */
  lemma OutlinesAgree(v1: string, v2: string)
    ensures ConfirmOutline(v1, v2) == AvailableOutline ==> FirstPasswordOutline(v1) == Plain
    ensures FirstPasswordOutline(v1) == ErrorOutline && v2 == v1 ==> ConfirmOutline(v1, v2) == Plain
  {
  }
}
