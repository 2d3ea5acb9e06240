/**
 * The form validators of the profile wizard: total functions from the
 * strings typed into a step's fields to a map from field to error message.
 * An empty map means the step may be left.
 */
module Validation {
  import opened Wrappers

  /** The keys a `ValidationErrors` record may carry. */
  datatype Field = FullName | Email | Age | City | State | Country

  type Errors = map<Field, string>

  const FullNameRequired := "Full Name is required"
  const EmailRequired := "Email is required"
  const EmailInvalid := "Please enter a valid email"
  const AgeRequired := "Age is required"
  const AgeInvalid := "Please enter a valid age (1-150)"
  const CityRequired := "City is required"
  const StateRequired := "State is required"
  const CountryRequired := "Country is required"

  /** The object handed to `validateBasicInfo`; `None` is a missing property. */
  datatype BasicInfoInput = BasicInfoInput(fullName: Option<string>, email: Option<string>, age: Option<string>)

  /** The object handed to `validateAddressInfo`. */
  datatype AddressInfoInput = AddressInfoInput(city: Option<string>, state: Option<string>, country: Option<string>)

  // ---------------------------------------------------------------------------
  // Whitespace and trimming
  // ---------------------------------------------------------------------------

  /**
   * The ECMAScript WhiteSpace and LineTerminator characters: the set that
   * `String.prototype.trim` strips and that the regular-expression class `\s`
   * matches.
   */
  predicate IsSpace(c: char) {
    var n := c as int;
    n == 0x09 || n == 0x0A || n == 0x0B || n == 0x0C || n == 0x0D || n == 0x20
    || n == 0xA0 || n == 0x1680 || (0x2000 <= n <= 0x200A)
    || n == 0x2028 || n == 0x2029 || n == 0x202F || n == 0x205F
    || n == 0x3000 || n == 0xFEFF
  }

  predicate AllSpace(s: string) {
    forall i | 0 <= i < |s| :: IsSpace(s[i])
  }

  /** Drops the leading whitespace: what is left is a suffix of `s` that does not start with whitespace. */
  function TrimStart(s: string): (r: string)
    ensures |r| <= |s| && r == s[|s| - |r|..]
    ensures AllSpace(s[..|s| - |r|])
    ensures r == [] || !IsSpace(r[0])
  {
    if s != [] && IsSpace(s[0]) then
      var r := TrimStart(s[1..]);
      assert s[..|s| - |r|] == [s[0]] + s[1..][..|s| - 1 - |r|];
      r
    else s
  }

  /** Drops the trailing whitespace: what is left is a prefix of `s` that does not end with whitespace. */
  function TrimEnd(s: string): (r: string)
    ensures |r| <= |s| && r == s[..|r|]
    ensures AllSpace(s[|r|..])
    ensures r == [] || !IsSpace(r[|r| - 1])
  {
    if s != [] && IsSpace(s[|s| - 1]) then
      var r := TrimEnd(s[..|s| - 1]);
      assert s[|r|..] == s[..|s| - 1][|r|..] + [s[|s| - 1]];
      r
    else s
  }

  /** `String.prototype.trim`. */
  function Trim(s: string): string {
    TrimEnd(TrimStart(s))
  }

  /** A string trims to nothing exactly when every character of it is whitespace. */
  lemma TrimEmptyIffAllSpace(s: string)
    ensures Trim(s) == "" <==> AllSpace(s)
  {
  }

  /** `!x || x.trim() === ''` for a property that is either a string or missing. */
  predicate Blank(x: Option<string>) {
    x.None? || x.value == "" || Trim(x.value) == ""
  }

  /** What `Blank` means: the property is missing, or holds only whitespace. */
  predicate Missing(x: Option<string>) {
    x.None? || AllSpace(x.value)
  }

  lemma BlankIffMissing(x: Option<string>)
    ensures Blank(x) <==> Missing(x)
  {
  }

  // ---------------------------------------------------------------------------
  // The e-mail shape check
  // ---------------------------------------------------------------------------

  /** Every character lies in the class `[^\s@]`. */
  predicate NoSpaceOrAt(s: string) {
    forall i | 0 <= i < |s| :: !IsSpace(s[i]) && s[i] != '@'
  }

  /**
   * `/^[^\s@]+@[^\s@]+\.[^\s@]+$/.test(s)`, read as the regular expression
   * says: `s` splits into a non-empty run of `[^\s@]`, an `@`, a non-empty
   * run, a `.`, and a non-empty run.
   */
  predicate MatchesEmailPattern(s: string) {
    exists at, dot | 0 < at < |s| && 0 < dot < |s| :: EmailMatchAt(s, at, dot)
  }

  /** The regular expression matches `s` with its `@` at `at` and its `\.` at `dot`. */
  predicate EmailMatchAt(s: string, at: int, dot: int) {
    && 0 < at && at + 1 < dot && dot + 1 < |s|
    && s[at] == '@' && s[dot] == '.'
    && NoSpaceOrAt(s[..at]) && NoSpaceOrAt(s[at + 1..dot]) && NoSpaceOrAt(s[dot + 1..])
  }

  /** The domain holds a `.` with at least one character on each side of it. */
  predicate HasInnerDot(domain: string) {
    |domain| >= 3 && '.' in domain[1..|domain| - 1]
  }

  /**
   * The shape check read at the `@`: a string with an `@` in it is accepted
   * exactly when the local part before that `@` is non-empty, neither part
   * holds whitespace or a further `@`, and the domain has an inner `.`.
   */
  lemma EmailPatternAtSplit(local: string, domain: string)
    ensures MatchesEmailPattern(local + "@" + domain)
        <==> |local| > 0 && NoSpaceOrAt(local) && NoSpaceOrAt(domain) && HasInnerDot(domain)
  {
    if MatchesEmailPattern(local + "@" + domain) {
      EmailMatchSplitsAtTheAt(local, domain);
    }
    if |local| > 0 && NoSpaceOrAt(local) && NoSpaceOrAt(domain) && HasInnerDot(domain) {
      EmailSplitMatches(local, domain);
    }
  }

  lemma EmailMatchSplitsAtTheAt(local: string, domain: string)
    requires MatchesEmailPattern(local + "@" + domain)
    ensures |local| > 0 && NoSpaceOrAt(local) && NoSpaceOrAt(domain) && HasInnerDot(domain)
  {
    var s := local + "@" + domain;
    var L := |local|;
    var at, dot :| 0 < at < |s| && 0 < dot < |s| && EmailMatchAt(s, at, dot);
    EmailMatchPlainElsewhere(s, at, dot);
    assert s[L] == '@';
    assert L == at;
    forall j | 0 <= j < |local|
      ensures !IsSpace(local[j]) && local[j] != '@'
    {
      assert local[j] == s[j];
    }
    forall j | 0 <= j < |domain|
      ensures !IsSpace(domain[j]) && domain[j] != '@'
    {
      assert domain[j] == s[L + 1 + j];
    }
    var k := dot - L - 1;
    assert domain[k] == '.';
    assert domain[1..|domain| - 1][k - 1] == '.';
  }

  /** Under a match, every position but the `@` is `@`-free and every position but the `.` is whitespace-free. */
  lemma EmailMatchPlainElsewhere(s: string, at: int, dot: int)
    requires EmailMatchAt(s, at, dot)
    ensures forall i | 0 <= i < |s| && i != at :: s[i] != '@' && (i != dot ==> !IsSpace(s[i]))
  {
  }

  lemma EmailSplitMatches(local: string, domain: string)
    requires |local| > 0 && NoSpaceOrAt(local) && NoSpaceOrAt(domain) && HasInnerDot(domain)
    ensures MatchesEmailPattern(local + "@" + domain)
  {
    var s := local + "@" + domain;
    var L := |local|;
    var m :| 0 <= m < |domain| - 2 && domain[1..|domain| - 1][m] == '.';
    var dot := L + 2 + m;
    assert s[L] == '@';
    assert s[dot] == '.';
    assert s[..L] == local;
    assert s[L + 1..dot] == domain[..m + 1];
    assert s[dot + 1..] == domain[m + 2..];
    assert NoSpaceOrAt(s[L + 1..dot]);
    assert NoSpaceOrAt(s[dot + 1..]);
    assert EmailMatchAt(s, L, dot);
  }

  /** A string without an `@` is never accepted. */
  lemma EmailPatternNeedsAt(s: string)
    requires '@' !in s
    ensures !MatchesEmailPattern(s)
  {
  }

  // ---------------------------------------------------------------------------
  // `Number(x)` restricted to decimal notation
  // ---------------------------------------------------------------------------

  predicate IsDigit(c: char) {
    '0' <= c <= '9'
  }

  predicate AllDigits(s: string) {
    forall i | 0 <= i < |s| :: IsDigit(s[i])
  }

  /** The value of a run of decimal digits, most significant first. */
  function DigitsValue(s: string): nat
    requires AllDigits(s)
  {
    if s == [] then 0 else DigitsValue(s[..|s| - 1]) * 10 + (s[|s| - 1] as int - '0' as int)
  }

  function Pow10(k: nat): (p: nat)
    ensures p >= 1
  {
    if k == 0 then 1 else 10 * Pow10(k - 1)
  }

  /** The position of the first `c` in `s`, or `|s|` when there is none. */
  function IndexOf(s: string, c: char): (i: nat)
    ensures i <= |s|
    ensures i < |s| ==> s[i] == c
    ensures c !in s[..i]
  {
    if s == [] then 0
    else if s[0] == c then 0
    else
      var i := 1 + IndexOf(s[1..], c);
      assert s[..i] == [s[0]] + s[1..][..i - 1];
      i
  }

  /**
   * An unsigned decimal literal: digits, optionally a `.` and more digits,
   * with at least one digit on some side of the `.`.
   */
  function UnsignedDecimal(b: string): Option<real> {
    var dot := IndexOf(b, '.');
    var whole := b[..dot];
    var frac := if dot < |b| then b[dot + 1..] else "";
    if (|whole| > 0 || |frac| > 0) && AllDigits(whole) && AllDigits(frac) then
      Some(DigitsValue(whole) as real + DigitsValue(frac) as real / Pow10(|frac|) as real)
    else
      None
  }

  /**
   * `Number(s)` for strings in decimal notation: surrounding whitespace is
   * ignored, an empty string reads as 0, a leading `+` or `-` is allowed;
   * `None` stands for `NaN`.
   */
  function NumberValue(s: string): Option<real> {
    var t := Trim(s);
    if t == "" then Some(0.0)
    else
      var body := if t[0] == '+' || t[0] == '-' then t[1..] else t;
      match UnsignedDecimal(body)
      case None => None
      case Some(x) => if t[0] == '-' then Some(-x) else Some(x)
  }

  /** A plain run of decimal digits reads as its decimal value. */
  lemma NumberValueOfDigits(s: string)
    requires s != "" && AllDigits(s)
    ensures NumberValue(s) == Some(DigitsValue(s) as real)
  {
    DigitStringIsTrimmed(s);
    UnsignedDecimalOfDigits(s);
    assert s[0] != '+' && s[0] != '-';
  }

  lemma UnsignedDecimalOfDigits(s: string)
    requires s != "" && AllDigits(s)
    ensures UnsignedDecimal(s) == Some(DigitsValue(s) as real)
  {
    var dot := IndexOf(s, '.');
    assert dot == |s| by { assert '.' !in s; }
    assert s[..dot] == s;
  }

  lemma DigitStringIsTrimmed(s: string)
    requires s != "" && AllDigits(s)
    ensures Trim(s) == s
  {
  }

  /** The age range check applied to the result of `Number`: `NaN` never passes. */
  predicate AgeInRange(v: Option<real>) {
    v.Some? && 1.0 <= v.value <= 150.0
  }

  // ---------------------------------------------------------------------------
  // The validators
  // ---------------------------------------------------------------------------

  /** The email verdict, by the meaning of each check rather than by `trim`. */
  predicate EmailAccepted(x: Option<string>) {
    !Missing(x) && MatchesEmailPattern(x.value)
  }

  predicate AgeAccepted(x: Option<string>) {
    !Missing(x) && AgeInRange(NumberValue(x.value))
  }

  /** The verdict on a field that is only required: the message when it is missing or blank. */
  function RequiredError(x: Option<string>, message: string): (e: Option<string>)
    ensures e.Some? <==> Missing(x)
    ensures e.Some? ==> e.value == message
  {
    BlankIffMissing(x);
    if Blank(x) then Some(message) else None
  }

  /** The verdict on the e-mail: "required" when it is blank, "valid email" when the shape check fails. */
  function EmailError(x: Option<string>): (e: Option<string>)
    ensures e.Some? <==> !EmailAccepted(x)
    ensures e.Some? ==> e.value == if Missing(x) then EmailRequired else EmailInvalid
  {
    BlankIffMissing(x);
    if Blank(x) then Some(EmailRequired)
    else if !MatchesEmailPattern(x.value) then Some(EmailInvalid)
    else None
  }

  /** The verdict on the age: "required" when it is blank, the range message when it is no number in 1..150. */
  function AgeError(x: Option<string>): (e: Option<string>)
    ensures e.Some? <==> !AgeAccepted(x)
    ensures e.Some? ==> e.value == if Missing(x) then AgeRequired else AgeInvalid
  {
    BlankIffMissing(x);
    if Blank(x) then Some(AgeRequired)
    else if !AgeInRange(NumberValue(x.value)) then Some(AgeInvalid)
    else None
  }

  /** `if (verdict) errors.key = verdict`. */
  function Record(errors: Errors, key: Field, verdict: Option<string>): Errors {
    if verdict.Some? then errors[key := verdict.value] else errors
  }

  /** `validateBasicInfo`: independent checks of the full name, the e-mail and the age. */
  function ValidateBasicInfo(data: BasicInfoInput): (errors: Errors)
    ensures errors.Keys <= {FullName, Email, Age}
    ensures FullName in errors <==> Missing(data.fullName)
    ensures Email in errors <==> !EmailAccepted(data.email)
    ensures Age in errors <==> !AgeAccepted(data.age)
    ensures FullName in errors ==> errors[FullName] == FullNameRequired
    ensures Email in errors ==> errors[Email] == if Missing(data.email) then EmailRequired else EmailInvalid
    ensures Age in errors ==> errors[Age] == if Missing(data.age) then AgeRequired else AgeInvalid
  {
    var e0: Errors := map[];
    var e1 := Record(e0, FullName, RequiredError(data.fullName, FullNameRequired));
    var e2 := Record(e1, Email, EmailError(data.email));
    Record(e2, Age, AgeError(data.age))
  }

  /** `validateAddressInfo`: independent required-field checks of city, state and country. */
  function ValidateAddressInfo(data: AddressInfoInput): (errors: Errors)
    ensures errors.Keys <= {City, State, Country}
    ensures City in errors <==> Missing(data.city)
    ensures State in errors <==> Missing(data.state)
    ensures Country in errors <==> Missing(data.country)
    ensures City in errors ==> errors[City] == CityRequired
    ensures State in errors ==> errors[State] == StateRequired
    ensures Country in errors ==> errors[Country] == CountryRequired
  {
    var e0: Errors := map[];
    var e1 := Record(e0, City, RequiredError(data.city, CityRequired));
    var e2 := Record(e1, State, RequiredError(data.state, StateRequired));
    Record(e2, Country, RequiredError(data.country, CountryRequired))
  }

  /** The basic-info step may be left exactly when all three fields are acceptable. */
  lemma BasicInfoPassesIff(data: BasicInfoInput)
    ensures ValidateBasicInfo(data) == map[]
        <==> !Missing(data.fullName) && EmailAccepted(data.email) && AgeAccepted(data.age)
  {
  }

  /** The address step may be left exactly when no field is missing or blank. */
  lemma AddressInfoPassesIff(data: AddressInfoInput)
    ensures ValidateAddressInfo(data) == map[]
        <==> !Missing(data.city) && !Missing(data.state) && !Missing(data.country)
  {
  }

  // ---------------------------------------------------------------------------
  // Worked instances
  // ---------------------------------------------------------------------------

  /** The canonical decimal rendering of a natural number. */
  function DecimalString(n: nat): (s: string)
    ensures s != "" && AllDigits(s) && DigitsValue(s) == n
  {
    var d := ['0' + (n % 10) as char];
    if n < 10 then d
    else
      var s := DecimalString(n / 10) + d;
      assert s[..|s| - 1] == DecimalString(n / 10);
      s
  }

  /** A run of decimal digits passes the age check exactly when its value lies in 1..150. */
  lemma AgeOfDigits(s: string)
    requires s != "" && AllDigits(s)
    ensures AgeAccepted(Some(s)) <==> 1 <= DigitsValue(s) <= 150
  {
    NumberValueOfDigits(s);
    assert !IsSpace(s[0]);
  }

  /** An age written as a whole number in decimal passes exactly when it lies in 1..150. */
  lemma DecimalAgeAcceptedIff(n: nat)
    ensures AgeAccepted(Some(DecimalString(n))) <==> 1 <= n <= 150
  {
    AgeOfDigits(DecimalString(n));
  }

  /** A string that is not a number fails the age check. */
  lemma NonNumericAgeRejected()
    ensures !AgeAccepted(Some("abc"))
  {
    var s := "abc";
    assert !IsSpace(s[0]) && !IsSpace(s[2]);
    assert Trim(s) == s;
    assert '.' !in s;
    assert IndexOf(s, '.') == 3;
    assert UnsignedDecimal(s) == None;
  }

  lemma EmailExamples()
    ensures MatchesEmailPattern("a@b.c")
    ensures !MatchesEmailPattern("not-an-email")
  {
    EmailPatternAtSplit("a", "b.c");
    assert "a" + "@" + "b.c" == "a@b.c";
    assert "b.c"[1..2] == ".";
    EmailPatternNeedsAt("not-an-email");
  }

  /**
   * The checks of `validateAddressInfo` are independent: when only the city
   * is blank, the city's message is the only error.
   */
  lemma OnlyCityBlank(city: Option<string>, state: string, country: string)
    requires Missing(city) && !AllSpace(state) && !AllSpace(country)
    ensures ValidateAddressInfo(AddressInfoInput(city, Some(state), Some(country))) == map[City := CityRequired]
  {
  }
}
