/** The input format checks of server/utils/validators.js, and the shared
    email and phone patterns the client forms reuse. */
module Validators {
  import opened Wrappers
  import opened Strings

  /** A piece the email pattern `[^\s@]+` accepts. */
  predicate EmailPiece(t: string) {
    |t| >= 1 && forall i :: 0 <= i < |t| ==> !IsSpace(t[i]) && t[i] != '@'
  }

  /** The regular expression /^[^\s@]+@[^\s@]+\.[^\s@]+$/ read as a concatenation:
      `s` splits at an `@` (index a) and a later `.` (index b) into three pieces. */
  ghost predicate EmailPattern(s: string) {
    exists a, b :: EmailSplit(s, a, b)
  }

  /** The three pieces, split at the `@` at index a and the `.` at index b. */
  predicate EmailSplit(s: string, a: int, b: int) {
    0 < a < b < |s| && s[a] == '@' && s[b] == '.'
    && EmailPiece(s[..a]) && EmailPiece(s[a + 1..b]) && EmailPiece(s[b + 1..])
  }

  /** The only `@` of `s` is at index a. */
  predicate SoleAt(s: string, a: int) {
    0 <= a < |s| && s[a] == '@' && forall i :: 0 <= i < |s| && i != a ==> s[i] != '@'
  }

  /** `validateEmail`: no whitespace, exactly one `@` with text before it, and a `.`
      with text on both sides somewhere after the `@`. */
  function ValidateEmail(s: string): (r: bool)
    ensures r <==> EmailPattern(s)
  {
    var ok := (forall i :: 0 <= i < |s| ==> !IsSpace(s[i]))
      && exists a :: 1 <= a < |s| && SoleAt(s, a) && exists b :: a + 2 <= b <= |s| - 2 && s[b] == '.';
    if ok then ScanGivesPattern(s); true else PatternGivesScan(s); false
  }

  /** The characters of a slice that is a valid piece. */
  lemma PieceChars(s: string, lo: int, hi: int)
    requires 0 <= lo <= hi <= |s| && EmailPiece(s[lo..hi])
    ensures forall i :: lo <= i < hi ==> !IsSpace(s[i]) && s[i] != '@'
  {
    assert forall i :: lo <= i < hi ==> s[i] == s[lo..hi][i - lo];
  }

  /** A non-empty slice free of whitespace and `@` is a valid piece. */
  lemma CharsPiece(s: string, lo: int, hi: int)
    requires 0 <= lo < hi <= |s|
    requires forall i :: lo <= i < hi ==> !IsSpace(s[i]) && s[i] != '@'
    ensures EmailPiece(s[lo..hi])
  {
    assert forall i :: 0 <= i < hi - lo ==> s[lo..hi][i] == s[i + lo];
  }

  lemma PatternGivesScan(s: string)
    ensures EmailPattern(s) ==>
      (forall i :: 0 <= i < |s| ==> !IsSpace(s[i]))
      && exists a :: 1 <= a < |s| && SoleAt(s, a) && exists b :: a + 2 <= b <= |s| - 2 && s[b] == '.'
  {
    if !EmailPattern(s) { return; }
    var a, b :| EmailSplit(s, a, b);
    assert s[..a] == s[0..a] && s[b + 1..] == s[b + 1..|s|];
    PieceChars(s, 0, a);
    PieceChars(s, a + 1, b);
    PieceChars(s, b + 1, |s|);
    assert SoleAt(s, a);
  }

  lemma ScanGivesPattern(s: string)
    requires forall i :: 0 <= i < |s| ==> !IsSpace(s[i])
    requires exists a :: 1 <= a < |s| && SoleAt(s, a) && exists b :: a + 2 <= b <= |s| - 2 && s[b] == '.'
    ensures EmailPattern(s)
  {
    var a :| 1 <= a < |s| && SoleAt(s, a) && exists b :: a + 2 <= b <= |s| - 2 && s[b] == '.';
    var b :| a + 2 <= b <= |s| - 2 && s[b] == '.';
    CharsPiece(s, 0, a);
    assert s[..a] == s[0..a];
    CharsPiece(s, a + 1, b);
    CharsPiece(s, b + 1, |s|);
    assert s[b + 1..] == s[b + 1..|s|];
    assert EmailSplit(s, a, b);
  }

  /** `validatePassword`: truthy exactly when a password is given and has at least 6 characters. */
  function ValidatePassword(password: Option<string>): (r: bool)
    ensures r <==> password.Some? && |password.value| >= 6
    ensures r ==> password.value != []
  {
    password.Some? && password.value != [] && |password.value| >= 6
  }

  /** A character of the phone class `[0-9+\-\s]`. */
  predicate PhoneChar(c: char) {
    IsDigit(c) || c == '+' || c == '-' || IsSpace(c)
  }

  /** `validatePhone`, /^[0-9+\-\s]{7,15}$/: 7 to 15 characters, each a digit, `+`, `-` or whitespace. */
  function ValidatePhone(s: string): (r: bool)
    ensures r ==> 7 <= |s| <= 15
    ensures r <==> |s| in {7, 8, 9, 10, 11, 12, 13, 14, 15} && MatchesClasses(s, Repeat(PhoneClass, |s|))
  {
    RepeatMatches(s, PhoneClass);
    7 <= |s| <= 15 && forall i :: 0 <= i < |s| ==> PhoneChar(s[i])
  }

  /** The character classes the fixed-width patterns are made of. */
  datatype CharClass = Digit | Upper | NonZeroDigitOrUpper | DigitOrUpper | Exactly(c: char) | PhoneClass

  predicate InClass(c: char, k: CharClass) {
    match k
    case Digit => IsDigit(c)
    case Upper => IsUpper(c)
    case NonZeroDigitOrUpper => ('1' <= c <= '9') || IsUpper(c)
    case DigitOrUpper => IsDigit(c) || IsUpper(c)
    case Exactly(d) => c == d
    case PhoneClass => PhoneChar(c)
  }

  /** `k{n}`: the class `k` repeated n times. */
  function Repeat(k: CharClass, n: nat): (p: seq<CharClass>)
    ensures |p| == n
    ensures forall i :: 0 <= i < n ==> p[i] == k
  {
    if n == 0 then [] else [k] + Repeat(k, n - 1)
  }

  /** A string matches a sequence of single-character classes, anchored at both ends. */
  function MatchesClasses(s: string, pattern: seq<CharClass>): (r: bool)
    ensures r <==> |s| == |pattern| && forall i :: 0 <= i < |s| ==> InClass(s[i], pattern[i])
  {
    if s == [] || pattern == [] then
      s == [] && pattern == []
    else
      var r := InClass(s[0], pattern[0]) && MatchesClasses(s[1..], pattern[1..]);
      assert r <==> |s| == |pattern| && forall i :: 0 <= i < |s| ==> InClass(s[i], pattern[i]) by {
        if |s| == |pattern| && forall i :: 0 <= i < |s| ==> InClass(s[i], pattern[i]) {
          assert forall i :: 0 <= i < |s| - 1 ==> InClass(s[1..][i], pattern[1..][i]) by {
            forall i | 0 <= i < |s| - 1 ensures InClass(s[1..][i], pattern[1..][i]) {
              assert InClass(s[i + 1], pattern[i + 1]);
            }
          }
        }
      }
      r
  }

  lemma RepeatMatches(s: string, k: CharClass)
    ensures MatchesClasses(s, Repeat(k, |s|)) <==> forall i :: 0 <= i < |s| ==> InClass(s[i], k)
  {
  }

  /** The GST number pattern /^[0-9]{2}[A-Z]{5}[0-9]{4}[A-Z]{1}[1-9A-Z]{1}Z[0-9A-Z]{1}$/. */
  function GstPattern(): (p: seq<CharClass>)
    ensures |p| == 15
  {
    Repeat(Digit, 2) + Repeat(Upper, 5) + Repeat(Digit, 4)
      + [Upper, NonZeroDigitOrUpper, Exactly('Z'), DigitOrUpper]
  }

  /** The PAN pattern /^[A-Z]{5}[0-9]{4}[A-Z]{1}$/. */
  function PanPattern(): (p: seq<CharClass>)
    ensures |p| == 10
  {
    Repeat(Upper, 5) + Repeat(Digit, 4) + [Upper]
  }

  /** `validateGSTNumber`: accepted strings are exactly 15 characters long, laid out as the
      state code, the PAN, the entity number, the letter Z and a check character. */
  function ValidateGSTNumber(s: string): (r: bool)
    ensures r ==> |s| == 15
    ensures r <==> (|s| == 15
      && (forall i :: 0 <= i < 2 ==> IsDigit(s[i]))
      && ValidatePANNumber(s[2..12])
      && ('1' <= s[12] <= '9' || IsUpper(s[12]))
      && s[13] == 'Z'
      && (IsDigit(s[14]) || IsUpper(s[14])))
  {
    if |s| == 15 then GstLayout(s); MatchesClasses(s, GstPattern()) else false
  }

  lemma GstLayout(s: string)
    requires |s| == 15
    ensures MatchesClasses(s, GstPattern()) <==>
      ((forall i :: 0 <= i < 2 ==> IsDigit(s[i]))
      && ValidatePANNumber(s[2..12])
      && ('1' <= s[12] <= '9' || IsUpper(s[12]))
      && s[13] == 'Z'
      && (IsDigit(s[14]) || IsUpper(s[14])))
  {
    var p := GstPattern();
    GstPatternAt();
    PanInside(s);
    if MatchesClasses(s, p) {
      assert forall i :: 0 <= i < 15 ==> InClass(s[i], p[i]);
    }
    if (forall i :: 0 <= i < 2 ==> IsDigit(s[i])) && ValidatePANNumber(s[2..12])
      && ('1' <= s[12] <= '9' || IsUpper(s[12])) && s[13] == 'Z' && (IsDigit(s[14]) || IsUpper(s[14])) {
      forall i | 0 <= i < 15 ensures InClass(s[i], p[i]) {
        if i < 2 {
        } else if i < 7 {
        } else if i < 11 {
        }
      }
    }
  }

  /** The class at each position of the GST pattern. */
  lemma GstPatternAt()
    ensures forall i :: 0 <= i < 2 ==> GstPattern()[i] == Digit
    ensures forall i :: 2 <= i < 7 ==> GstPattern()[i] == Upper
    ensures forall i :: 7 <= i < 11 ==> GstPattern()[i] == Digit
    ensures GstPattern()[11] == Upper && GstPattern()[12] == NonZeroDigitOrUpper
    ensures GstPattern()[13] == Exactly('Z') && GstPattern()[14] == DigitOrUpper
  {
    var a, b, c := Repeat(Digit, 2), Repeat(Upper, 5), Repeat(Digit, 4);
    var d: seq<CharClass> := [Upper, NonZeroDigitOrUpper, Exactly('Z'), DigitOrUpper];
    assert GstPattern() == a + b + c + d;
    assert forall i :: 2 <= i < 7 ==> (a + b + c + d)[i] == b[i - 2];
    assert forall i :: 7 <= i < 11 ==> (a + b + c + d)[i] == c[i - 7];
  }

  /** The PAN check on the middle ten characters of a GST number. */
  lemma PanInside(s: string)
    requires |s| == 15
    ensures ValidatePANNumber(s[2..12]) <==>
      ((forall i :: 2 <= i < 7 ==> IsUpper(s[i]))
      && (forall i :: 7 <= i < 11 ==> IsDigit(s[i])) && IsUpper(s[11]))
  {
    var t := s[2..12];
    assert forall i :: 0 <= i < 10 ==> t[i] == s[i + 2];
  }

  /** `validatePANNumber`: five capitals, four digits, one capital; accepted strings are
      exactly 10 characters long. */
  function ValidatePANNumber(s: string): (r: bool)
    ensures r ==> |s| == 10
    ensures r <==> (|s| == 10 && (forall i :: 0 <= i < 5 ==> IsUpper(s[i]))
      && (forall i :: 5 <= i < 9 ==> IsDigit(s[i])) && IsUpper(s[9]))
  {
    var p := PanPattern();
    assert forall i :: 0 <= i < 5 ==> p[i] == Upper;
    assert forall i :: 5 <= i < 9 ==> p[i] == Digit;
    MatchesClasses(s, p)
  }

  /** A character of `\w`, i.e. [A-Za-z0-9_]. */
  predicate IsWordChar(c: char) {
    IsDigit(c) || IsUpper(c) || IsLower(c) || c == '_'
  }

  /** Word characters in runs joined by single `.` or `-` separators: /\w+([\.-]?\w+)*​/. */
  predicate WordRuns(t: string) {
    |t| >= 1 && IsWordChar(t[0]) && IsWordChar(t[|t| - 1])
    && forall i :: 0 <= i < |t| ==> RunChar(t, i)
  }

  /** Index i of t holds a word character, or a separator followed by one. */
  predicate RunChar(t: string, i: int)
    requires 0 <= i < |t|
  {
    IsWordChar(t[i]) || ((t[i] == '.' || t[i] == '-') && i + 1 < |t| && IsWordChar(t[i + 1]))
  }

  /** One or more groups of a `.` and two or three word characters: /(\.\w{2,3})+/. */
  predicate DomainSuffix(t: string)
    decreases |t|
  {
    |t| >= 3 && t[0] == '.' && IsWordChar(t[1]) && IsWordChar(t[2])
    && (|t| == 3 || DomainSuffix(t[3..]) || (IsWordChar(t[3]) && (|t| == 4 || DomainSuffix(t[4..]))))
  }

  /** The email pattern of the user schema (server/models/User.js), applied to the stored,
      lower-cased address: /^\w+([\.-]?\w+)*@\w+([\.-]?\w+)*(\.\w{2,3})+$/. */
  predicate SchemaEmail(s: string) {
    exists a :: 0 <= a < |s| && s[a] == '@' && WordRuns(s[..a])
      && exists k :: a + 1 <= k < |s| && WordRuns(s[a + 1..k]) && DomainSuffix(s[k..])
  }

  /** A domain suffix starts with a dot and holds no whitespace or `@`. */
  lemma {:induction false} DomainSuffixShape(t: string)
    requires DomainSuffix(t)
    ensures |t| >= 3 && t[0] == '.'
    ensures forall i :: 0 <= i < |t| ==> IsWordChar(t[i]) || t[i] == '.'
    decreases |t|
  {
    if |t| > 3 && DomainSuffix(t[3..]) {
      DomainSuffixShape(t[3..]);
      assert forall i :: 3 <= i < |t| ==> t[i] == t[3..][i - 3];
    } else if |t| > 4 {
      DomainSuffixShape(t[4..]);
      assert forall i :: 4 <= i < |t| ==> t[i] == t[4..][i - 4];
    }
  }

  /** Every address the user schema accepts also passes `validateEmail`. */
  lemma SchemaEmailPassesValidateEmail(s: string)
    requires SchemaEmail(s)
    ensures ValidateEmail(s)
  {
    var a :| 0 <= a < |s| && s[a] == '@' && WordRuns(s[..a])
      && exists k :: a + 1 <= k < |s| && WordRuns(s[a + 1..k]) && DomainSuffix(s[k..]);
    var k :| a + 1 <= k < |s| && WordRuns(s[a + 1..k]) && DomainSuffix(s[k..]);
    assert s[..a] == s[0..a];
    WordRunsChars(s, 0, a);
    WordRunsChars(s, a + 1, k);
    SuffixChars(s, k);
    forall i | 0 <= i < |s| ensures !IsSpace(s[i]) && (i != a ==> s[i] != '@') {
      if i == a { } else if i < a { } else if i < k { } else { }
    }
    assert SoleAt(s, a);
    ScanGivesPattern(s);
  }

  /** The characters of a slice made of word runs. */
  lemma WordRunsChars(s: string, lo: int, hi: int)
    requires 0 <= lo <= hi <= |s| && WordRuns(s[lo..hi])
    ensures lo < hi
    ensures forall i :: lo <= i < hi ==> !IsSpace(s[i]) && s[i] != '@'
  {
    forall i | lo <= i < hi ensures !IsSpace(s[i]) && s[i] != '@' {
      var t := s[lo..hi];
      assert s[i] == t[i - lo] && RunChar(t, i - lo);
    }
  }

  /** The characters of a domain suffix that ends the string. */
  lemma SuffixChars(s: string, k: int)
    requires 0 <= k <= |s| && DomainSuffix(s[k..])
    ensures k + 3 <= |s| && s[k] == '.'
    ensures forall i :: k <= i < |s| ==> !IsSpace(s[i]) && s[i] != '@'
  {
    DomainSuffixShape(s[k..]);
    forall i | k <= i < |s| ensures !IsSpace(s[i]) && s[i] != '@' {
      assert s[i] == s[k..][i - k];
      assert IsWordChar(s[i]) || s[i] == '.';
    }
  }

  /** A one-character top-level domain passes `validateEmail` but not the user schema. */
  lemma ShortDomainOnlyPassesRouteCheck()
    ensures ValidateEmail("a@b.c") && !SchemaEmail("a@b.c")
  {
    var s := "a@b.c";
    assert s == ['a', '@', 'b', '.', 'c'];
    assert forall i :: 0 <= i < |s| ==> !IsSpace(s[i]);
    assert SoleAt(s, 1) && s[3] == '.';
    ScanGivesPattern(s);
    assert s[2..2] == [];
    assert s[3..] == ".c" && s[4..] == "c";
    assert forall a :: 0 <= a < |s| && s[a] == '@' ==> a == 1;
  }
}
