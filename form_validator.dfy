/** `FormValidator` of src/components.js: the checks of the order form. A
    field is read as the form gives it, possibly `undefined`, and `String()`
    turns `undefined` into the text "undefined". */
module FormValidator {
  import opened Wrappers
  import opened Strings
  import Validators

  /** `String(value)`. */
  function JsString(v: Option<string>): (s: string)
    ensures v.Some? ==> s == v.value
    ensures v.None? ==> s == "undefined"
  {
    match v
    case Some(s) => s
    case None => "undefined"
  }

  /** Lower-casing changes neither whitespace nor `@` nor `.`, in either
      direction. */
  lemma LowerCharKeepsMarks(c: char)
    ensures IsSpace(LowerChar(c)) == IsSpace(c)
    ensures (LowerChar(c) == '@') == (c == '@')
    ensures (LowerChar(c) == '.') == (c == '.')
  {
  }

  /** A piece of the e-mail pattern is one after lower-casing and before. */
  lemma PieceLower(s: string, lo: int, hi: int)
    requires 0 <= lo <= hi <= |s|
    ensures Validators.EmailPiece(ToLower(s)[lo..hi]) == Validators.EmailPiece(s[lo..hi])
  {
    var t := ToLower(s);
    forall i | lo <= i < hi
      ensures IsSpace(t[i]) == IsSpace(s[i]) && (t[i] == '@') == (s[i] == '@')
    {
      LowerCharKeepsMarks(s[i]);
    }
    assert forall i :: 0 <= i < hi - lo ==> t[lo..hi][i] == t[lo + i] && s[lo..hi][i] == s[lo + i];
  }

  /** A split is one after lower-casing and before. */
  lemma SplitsAtLower(s: string, a: int, b: int)
    requires 0 < a < b < |s|
    ensures Validators.EmailSplit(ToLower(s), a, b) == Validators.EmailSplit(s, a, b)
  {
    var t := ToLower(s);
    LowerCharKeepsMarks(s[a]);
    LowerCharKeepsMarks(s[b]);
    PieceLower(s, 0, a);
    PieceLower(s, a + 1, b);
    PieceLower(s, b + 1, |s|);
    assert t[..a] == t[0..a] && s[..a] == s[0..a];
    assert t[b + 1..] == t[b + 1..|s|] && s[b + 1..] == s[b + 1..|s|];
  }

  /** The e-mail pattern does not see case. */
  lemma EmailIgnoresCase(s: string)
    ensures Validators.ValidateEmail(ToLower(s)) == Validators.ValidateEmail(s)
  {
    var t := ToLower(s);
    if Validators.EmailPattern(s) {
      var a, b :| Validators.EmailSplit(s, a, b);
      SplitsAtLower(s, a, b);
    }
    if Validators.EmailPattern(t) {
      var a, b :| Validators.EmailSplit(t, a, b);
      SplitsAtLower(s, a, b);
    }
  }

  /** `isEmail`: the shared e-mail pattern on the lower-cased text; a
      missing field fails, and case never matters. */
  function IsEmail(v: Option<string>): (r: bool)
    ensures r <==> v.Some? && Validators.ValidateEmail(v.value)
  {
    EmailIgnoresCase(JsString(v));
    assert !Validators.ValidateEmail("undefined");
    Validators.ValidateEmail(ToLower(JsString(v)))
  }

  /** `isPhone`: 7 to 15 characters, each a digit, `+`, `-` or whitespace; a
      missing field fails. */
  function IsPhone(v: Option<string>): (r: bool)
    ensures r <==> v.Some? && 7 <= |v.value| <= 15 && forall i :: 0 <= i < |v.value| ==> Validators.PhoneChar(v.value[i])
  {
    assert !Validators.PhoneChar("undefined"[0]);
    Validators.ValidatePhone(JsString(v))
  }

  /** `isNotEmpty`: a missing or empty field fails, and so does one of
      whitespace only. */
  function IsNotEmpty(v: Option<string>): (r: bool)
    ensures r <==> v.Some? && exists i :: 0 <= i < |v.value| && !IsSpace(v.value[i])
  {
    Trim(if Truthy(v) then v.value else "") != []
  }

  /** The fields `validateOrderForm` reads. */
  datatype OrderForm = OrderForm(name: Option<string>, email: Option<string>, phone: Option<string>, address: Option<string>)

  /** The keys of the errors object. */
  datatype FormField = NameKey | EmailKey | PhoneKey | AddressKey

  const FormFields: set<FormField> := {NameKey, EmailKey, PhoneKey, AddressKey}

  /** The check each key reports. */
  predicate Fails(f: OrderForm, k: FormField) {
    match k
    case NameKey => !IsNotEmpty(f.name)
    case EmailKey => !IsEmail(f.email)
    case PhoneKey => !IsPhone(f.phone)
    case AddressKey => !IsNotEmpty(f.address)
  }

  /** `validateOrderForm`: the keys of the failing checks. */
  function OrderFormErrors(f: OrderForm): (errors: set<FormField>)
    ensures errors <= FormFields
    ensures f.name.None? ==> NameKey in errors
    ensures f.email.None? ==> EmailKey in errors
    ensures f.phone.None? ==> PhoneKey in errors
    ensures f.address.None? ==> AddressKey in errors
  {
    set k | k in FormFields && Fails(f, k)
  }

  /** The errors name exactly the failing fields; the form is accepted
      exactly when every field passes. */
  lemma OrderFormErrorsMeaning(f: OrderForm)
    ensures NameKey in OrderFormErrors(f) <==> !IsNotEmpty(f.name)
    ensures EmailKey in OrderFormErrors(f) <==> !IsEmail(f.email)
    ensures PhoneKey in OrderFormErrors(f) <==> !IsPhone(f.phone)
    ensures AddressKey in OrderFormErrors(f) <==> !IsNotEmpty(f.address)
    ensures OrderFormErrors(f) == {} <==>
      IsNotEmpty(f.name) && IsEmail(f.email) && IsPhone(f.phone) && IsNotEmpty(f.address)
  {
    if IsNotEmpty(f.name) && IsEmail(f.email) && IsPhone(f.phone) && IsNotEmpty(f.address) {
      assert forall k :: k in FormFields ==> !Fails(f, k);
    }
  }
}
