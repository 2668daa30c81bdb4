/**
 * The password and e-mail policy of express/src/inputValidation.ts: parsing of a
 * `U-L-D-S-N` rule descriptor, the password-strength check it drives, and the
 * structural e-mail recogniser.
 */
module InputValidation {
  import opened Wrappers

  // ---------------------------------------------------------------------------
  // String splitting (`s.split(d)` for a one-character separator) and its inverse
  // ---------------------------------------------------------------------------

  /** The separator-free fields of `s`; like JavaScript, an empty string gives [""]. */
  function Split(s: string, d: char): (fields: seq<string>)
    ensures |fields| >= 1
    ensures forall i :: 0 <= i < |fields| ==> d !in fields[i]
    ensures Join(fields, d) == s
    decreases |s|
  {
    if s == [] then [""]
    else
      var rest := Split(s[1..], d);
      if s[0] == d then
        assert ([""] + rest)[1..] == rest;
        [""] + rest
      else
        var first := [s[0]] + rest[0];
        assert Join([first] + rest[1..], d) == [s[0]] + Join(rest, d);
        [first] + rest[1..]
  }

  /** `fields.join(d)`. */
  function Join(fields: seq<string>, d: char): string
    requires |fields| >= 1
    decreases |fields|
  {
    if |fields| == 1 then fields[0] else fields[0] + [d] + Join(fields[1..], d)
  }

  /** Splitting `a + t` where `a` holds no separator glues `a` to the first field of `t`. */
  lemma {:induction false} SplitPrefix(a: string, t: string, d: char)
    requires d !in a
    ensures Split(a + t, d) == [a + Split(t, d)[0]] + Split(t, d)[1..]
    decreases |a|
  {
    if a != [] {
      var s := a + t;
      assert s[0] == a[0] && s[0] != d;
      assert s[1..] == a[1..] + t;
      SplitPrefix(a[1..], t, d);
      var rest := Split(s[1..], d);
      assert rest[0] == a[1..] + Split(t, d)[0];
      assert rest[1..] == Split(t, d)[1..];
      assert Split(s, d) == [[s[0]] + rest[0]] + rest[1..];
      assert [s[0]] + rest[0] == a + Split(t, d)[0];
    } else {
      assert a + t == t;
      assert a + Split(t, d)[0] == Split(t, d)[0];
      assert [a + Split(t, d)[0]] + Split(t, d)[1..] == Split(t, d);
    }
  }

  /** Split is the inverse of Join on separator-free fields: the decomposition is unique. */
  lemma {:induction false} SplitJoin(fields: seq<string>, d: char)
    requires |fields| >= 1
    requires forall i :: 0 <= i < |fields| ==> d !in fields[i]
    ensures Split(Join(fields, d), d) == fields
    decreases |fields|
  {
    if |fields| == 1 {
      SplitPrefix(fields[0], "", d);
      assert fields[0] + "" == fields[0];
    } else {
      var tail := Join(fields[1..], d);
      SplitJoin(fields[1..], d);
      assert Join(fields, d) == fields[0] + ([d] + tail);
      SplitPrefix(fields[0], [d] + tail, d);
      var u := [d] + tail;
      assert u != [] && u[0] == d && u[1..] == tail;
      assert Split(u, d) == [""] + Split(tail, d);
      assert Split(u, d)[0] == "" && Split(u, d)[1..] == fields[1..];
      assert fields[0] + "" == fields[0];
      assert fields == [fields[0]] + fields[1..];
    }
  }

  // ---------------------------------------------------------------------------
  // Decimal numbers: `Number(field)` and the decimal rendering of a length
  // ---------------------------------------------------------------------------

  predicate IsDigit(c: char) { '0' <= c <= '9' }

  predicate AllDigits(s: string) { forall i :: 0 <= i < |s| ==> IsDigit(s[i]) }

  function DigitsValue(s: string): nat
    requires AllDigits(s)
    decreases |s|
  {
    if s == [] then 0 else DigitsValue(s[..|s| - 1]) * 10 + (s[|s| - 1] as int - '0' as int)
  }

  /** `Number(field)`: the empty string is 0, a string of decimal digits its value, anything else NaN (None). */
  function NumberOf(field: string): Option<nat> {
    if AllDigits(field) then Some(DigitsValue(field)) else None
  }

  /** The decimal rendering of `n`, as `n.toString()` gives it. */
  function DecimalString(n: nat): (s: string)
    ensures |s| >= 1 && AllDigits(s)
    decreases n
  {
    var last := [(('0' as int) + n % 10) as char];
    if n < 10 then last else DecimalString(n / 10) + last
  }

  /** Reading back a rendered number gives the number. */
  lemma {:induction false} DecimalRoundTrip(n: nat)
    ensures NumberOf(DecimalString(n)) == Some(n)
    decreases n
  {
    var s := DecimalString(n);
    if n >= 10 {
      DecimalRoundTrip(n / 10);
      assert s[..|s| - 1] == DecimalString(n / 10);
      assert DigitsValue(s) == DigitsValue(DecimalString(n / 10)) * 10 + n % 10;
    } else {
      assert s[..|s| - 1] == [];
      assert DigitsValue(s) == n % 10;
    }
  }

  // ---------------------------------------------------------------------------
  // Password rules
  // ---------------------------------------------------------------------------

  /** ParsedPasswordValidationRules; a NaN minimum length is None. */
  datatype PasswordRules = PasswordRules(upper: bool, lower: bool, number: bool, special: bool, minLength: Option<nat>)

  /** The rule descriptor used when the configuration gives none. */
  const DefaultRuleDescriptor: string := "Y-Y-Y-N-8"

  function Field(fields: seq<string>, i: nat): Option<string> {
    if i < |fields| then Some(fields[i]) else None
  }

  /**
   * What `parsePasswordRules` yields for a descriptor: each flag is off exactly when
   * its dash-separated field is "N", and the minimum length is `Number` of the fifth
   * field, NaN when there is none.
   */
  function RulesOf(descriptor: string): PasswordRules {
    var fields := Split(descriptor, '-');
    PasswordRules(
      Field(fields, 0) != Some("N"),
      Field(fields, 1) != Some("N"),
      Field(fields, 2) != Some("N"),
      Field(fields, 3) != Some("N"),
      if 4 < |fields| then NumberOf(fields[4]) else None)
  }

  /** Starts from the built-in record and overwrites it field by field, as the source does. */
  method ParsePasswordRules(descriptor: string) returns (parsed: PasswordRules)
    ensures parsed == RulesOf(descriptor)
  {
    parsed := PasswordRules(true, true, true, true, Some(8));
    var fields := Split(descriptor, '-');
    if fields[0] == "N" { parsed := parsed.(upper := false); }
    if 1 < |fields| && fields[1] == "N" { parsed := parsed.(lower := false); }
    if 2 < |fields| && fields[2] == "N" { parsed := parsed.(number := false); }
    if 3 < |fields| && fields[3] == "N" { parsed := parsed.(special := false); }
    parsed := parsed.(minLength := if 4 < |fields| then NumberOf(fields[4]) else None);
  }

  /** A descriptor of exactly five fields parses field by field. */
  lemma ParseFiveFields(fields: seq<string>)
    requires |fields| == 5
    requires forall i :: 0 <= i < 5 ==> '-' !in fields[i]
    ensures RulesOf(Join(fields, '-')) ==
            PasswordRules(fields[0] != "N", fields[1] != "N", fields[2] != "N", fields[3] != "N", NumberOf(fields[4]))
  {
    SplitJoin(fields, '-');
  }

  function Flag(on: bool): string { if on then "Y" else "N" }

  /** The well-formed descriptor `U-L-D-S-N` for the given flags and length. */
  function Descriptor(upper: bool, lower: bool, number: bool, special: bool, minLength: nat): string {
    Flag(upper) + "-" + Flag(lower) + "-" + Flag(number) + "-" + Flag(special) + "-" + DecimalString(minLength)
  }

  /** Joining five fields with dashes. */
  lemma JoinFive(a: string, b: string, c: string, e: string, f: string)
    ensures Join([a, b, c, e, f], '-') == a + "-" + b + "-" + c + "-" + e + "-" + f
  {
    var f3 := [e, f];
    var f2 := [c] + f3;
    var f1 := [b] + f2;
    assert [a, b, c, e, f] == [a] + f1;
    assert f3[1..] == [f] && f2[1..] == f3 && f1[1..] == f2 && ([a] + f1)[1..] == f1;
    assert Join(f3, '-') == e + "-" + f;
    assert Join(f2, '-') == c + "-" + (e + "-" + f);
    assert Join(f1, '-') == b + "-" + (c + "-" + (e + "-" + f));
  }

  /** Every well-formed descriptor parses to exactly the flags and length it spells. */
  lemma DescriptorParsed(upper: bool, lower: bool, number: bool, special: bool, minLength: nat)
    ensures RulesOf(Descriptor(upper, lower, number, special, minLength)) ==
            PasswordRules(upper, lower, number, special, Some(minLength))
  {
    var n := DecimalString(minLength);
    var fields := [Flag(upper), Flag(lower), Flag(number), Flag(special), n];
    JoinFive(Flag(upper), Flag(lower), Flag(number), Flag(special), n);
    ParseFiveFields(fields);
    DecimalRoundTrip(minLength);
  }

  // ---------------------------------------------------------------------------
  // Password strength
  // ---------------------------------------------------------------------------

  datatype CharClass = Upper | Lower | Digit | Special

  /** The fixed special-character set of the source: all 32 ASCII punctuation characters. */
  const SpecialCharacters: string := "`!@#$%^&*()_+-=[]{};':\"\\|,.<>/?~"

  predicate InClass(c: char, k: CharClass) {
    match k
    case Upper => 'A' <= c <= 'Z'
    case Lower => 'a' <= c <= 'z'
    case Digit => IsDigit(c)
    case Special => c in SpecialCharacters
  }

  /** `/[class]/.test(s)`. */
  predicate Has(s: string, k: CharClass) {
    exists i :: 0 <= i < |s| && InClass(s[i], k)
  }

  /** The four presence checks, each only when its flag is on. */
  predicate ClassesPresent(password: string, r: PasswordRules) {
    && (r.upper ==> Has(password, Upper))
    && (r.lower ==> Has(password, Lower))
    && (r.number ==> Has(password, Digit))
    && (r.special ==> Has(password, Special))
  }

  /** `!(password.length < minLength)`; a comparison with NaN is false, so None never fails. */
  predicate LongEnough(password: string, minLength: Option<nat>) {
    minLength.Some? ==> |password| >= minLength.value
  }

  /** All five checks of `validatePassword`. */
  predicate Accepts(password: string, r: PasswordRules) {
    ClassesPresent(password, r) && LongEnough(password, r.minLength)
  }

  /** Clears `valid` at every failing check; no check is skipped. */
  method ValidatePassword(password: string, descriptor: string) returns (valid: bool)
    ensures valid == Accepts(password, RulesOf(descriptor))
  {
    var parsed := ParsePasswordRules(descriptor);
    valid := true;
    if parsed.upper {
      if !Has(password, Upper) { valid := false; }
    }
    if parsed.lower {
      if !Has(password, Lower) { valid := false; }
    }
    if parsed.number {
      if !Has(password, Digit) { valid := false; }
    }
    if parsed.special {
      if !Has(password, Special) { valid := false; }
    }
    if parsed.minLength.Some? && |password| < parsed.minLength.value { valid := false; }
  }

  /** For a well-formed descriptor, acceptance is exactly "every required class present and long enough". */
  lemma DescriptorMeaning(upper: bool, lower: bool, number: bool, special: bool, minLength: nat, password: string)
    ensures Accepts(password, RulesOf(Descriptor(upper, lower, number, special, minLength))) <==>
            && (upper ==> Has(password, Upper))
            && (lower ==> Has(password, Lower))
            && (number ==> Has(password, Digit))
            && (special ==> Has(password, Special))
            && |password| >= minLength
  {
    DescriptorParsed(upper, lower, number, special, minLength);
  }

  /** Under the default descriptor a password needs an upper, a lower and a digit and eight characters. */
  lemma DefaultRuleMeaning(password: string)
    ensures Accepts(password, RulesOf(DefaultRuleDescriptor)) <==>
            Has(password, Upper) && Has(password, Lower) && Has(password, Digit) && |password| >= 8
  {
    assert Descriptor(true, true, true, false, 8) == DefaultRuleDescriptor;
    DescriptorMeaning(true, true, true, false, 8, password);
  }

  /** Under `N-N-N-N-0` every password is accepted. */
  lemma NothingRequiredAcceptsAll(password: string)
    ensures Accepts(password, RulesOf("N-N-N-N-0"))
  {
    assert Descriptor(false, false, false, false, 0) == "N-N-N-N-0";
    DescriptorParsed(false, false, false, false, 0);
  }

  /** A fifth field that is not a number makes the length check pass for every password. */
  lemma NonNumericLengthNeverFails(fields: seq<string>, password: string)
    requires |fields| == 5
    requires forall i :: 0 <= i < 5 ==> '-' !in fields[i]
    requires !AllDigits(fields[4])
    ensures RulesOf(Join(fields, '-')).minLength == None
    ensures Accepts(password, RulesOf(Join(fields, '-'))) <==> ClassesPresent(password, RulesOf(Join(fields, '-')))
  {
    ParseFiveFields(fields);
  }

  /** Every check is a presence or lower-bound check, so appending characters keeps a password valid. */
  lemma AppendKeepsValid(password: string, extra: string, r: PasswordRules)
    requires Accepts(password, r)
    ensures Accepts(password + extra, r)
  {
    forall k: CharClass | Has(password, k) ensures Has(password + extra, k) {
      var i :| 0 <= i < |password| && InClass(password[i], k);
      assert (password + extra)[i] == password[i];
    }
  }

  // ---------------------------------------------------------------------------
  // E-mail syntax
  // ---------------------------------------------------------------------------

  /** JavaScript's `\s`. */
  predicate IsWhitespace(c: char) {
    var n := c as int;
    n == 0x09 || n == 0x0A || n == 0x0B || n == 0x0C || n == 0x0D || n == 0x20 || n == 0xA0 ||
    n == 0x1680 || (0x2000 <= n <= 0x200A) || n == 0x2028 || n == 0x2029 || n == 0x202F ||
    n == 0x205F || n == 0x3000 || n == 0xFEFF
  }

  /** The characters `.` does not match. */
  predicate IsLineTerminator(c: char) {
    var n := c as int;
    n == 0x0A || n == 0x0D || n == 0x2028 || n == 0x2029
  }

  predicate IsAsciiLetter(c: char) { 'a' <= c <= 'z' || 'A' <= c <= 'Z' }

  /** `[^<>()\[\]\\.,;:\s@"]` */
  predicate IsAtomChar(c: char) { c !in "<>()[]\\.,;:@\"" && !IsWhitespace(c) }

  /** `[a-zA-Z\-0-9]` */
  predicate IsLabelChar(c: char) { IsAsciiLetter(c) || IsDigit(c) || c == '-' }

  /** `X+(\.X+)*`: non-empty runs of class X separated by single dots. */
  predicate DotSeparated(s: string, inClass: char -> bool) {
    && |s| > 0 && s[0] != '.' && s[|s| - 1] != '.'
    && (forall i :: 0 <= i < |s| ==> s[i] == '.' || inClass(s[i]))
    && (forall i, j :: 0 <= i < |s| && 0 <= j < |s| && j == i + 1 ==> !(s[i] == '.' && s[j] == '.'))
  }

  /** `".+"` */
  predicate IsQuotedLocal(s: string) {
    |s| >= 3 && s[0] == '"' && s[|s| - 1] == '"' && forall i :: 0 < i < |s| - 1 ==> !IsLineTerminator(s[i])
  }

  predicate IsLocalPart(s: string) { DotSeparated(s, IsAtomChar) || IsQuotedLocal(s) }

  /** `[0-9]{1,3}` */
  predicate IsDigitRun(s: string) { 1 <= |s| <= 3 && AllDigits(s) }

  /** `\[[0-9]{1,3}\.[0-9]{1,3}\.[0-9]{1,3}\.[0-9]{1,3}\]` */
  predicate IsIpv4Literal(s: string) {
    |s| >= 2 && s[0] == '[' && s[|s| - 1] == ']' &&
    var parts := Split(s[1..|s| - 1], '.');
    |parts| == 4 && forall i :: 0 <= i < 4 ==> IsDigitRun(parts[i])
  }

  /** `[a-zA-Z]{2,}` */
  predicate IsTopLevelLabel(t: string) { |t| >= 2 && forall i :: 0 <= i < |t| ==> IsAsciiLetter(t[i]) }

  /** `([a-zA-Z\-0-9]+\.)+[a-zA-Z]{2,}`: the last dot separates the labels from the top-level label. */
  predicate IsHostName(s: string) {
    exists j :: 0 < j < |s| && s[j] == '.' && DotSeparated(s[..j], IsLabelChar) && IsTopLevelLabel(s[j + 1..])
  }

  predicate IsDomain(s: string) { IsIpv4Literal(s) || IsHostName(s) }

  /** `validateEmail`: some `@` splits the string into a local part and a domain. */
  predicate ValidateEmail(email: string) {
    exists k :: 0 <= k < |email| && email[k] == '@' && IsLocalPart(email[..k]) && IsDomain(email[k + 1..])
  }

  /** The characters of a string whose dot-separated fields are all digits are digits and dots. */
  lemma {:induction false} DigitFieldsChars(s: string)
    requires forall i :: 0 <= i < |Split(s, '.')| ==> AllDigits(Split(s, '.')[i])
    ensures forall i :: 0 <= i < |s| ==> s[i] == '.' || IsDigit(s[i])
    decreases |s|
  {
    if s != [] {
      var rest := Split(s[1..], '.');
      if s[0] == '.' {
        assert Split(s, '.') == [""] + rest;
        forall i | 0 <= i < |rest| ensures AllDigits(rest[i]) {
          assert rest[i] == Split(s, '.')[i + 1];
        }
      } else {
        var first := [s[0]] + rest[0];
        assert Split(s, '.') == [first] + rest[1..];
        assert first[0] == s[0];
        forall i | 0 <= i < |rest| ensures AllDigits(rest[i]) {
          if i == 0 {
            forall m | 0 <= m < |rest[0]| ensures IsDigit(rest[0][m]) { assert rest[0][m] == first[m + 1]; }
          } else {
            assert rest[i] == Split(s, '.')[i];
          }
        }
      }
      DigitFieldsChars(s[1..]);
      forall i | 0 < i < |s| ensures s[i] == '.' || IsDigit(s[i]) { assert s[i] == s[1..][i - 1]; }
    }
  }

  /** No character of a domain is whitespace. */
  lemma DomainHasNoWhitespace(d: string, i: int)
    requires IsDomain(d) && 0 <= i < |d|
    ensures !IsWhitespace(d[i])
  {
    if IsIpv4Literal(d) {
      if 0 < i < |d| - 1 {
        var inner := d[1..|d| - 1];
        forall m | 0 <= m < |Split(inner, '.')| ensures AllDigits(Split(inner, '.')[m]) {
          assert IsDigitRun(Split(inner, '.')[m]);
        }
        DigitFieldsChars(inner);
        assert d[i] == inner[i - 1];
      }
    } else {
      var j :| 0 < j < |d| && d[j] == '.' && DotSeparated(d[..j], IsLabelChar) && IsTopLevelLabel(d[j + 1..]);
      if i < j {
        assert d[i] == d[..j][i];
      } else if i > j {
        assert d[i] == d[j + 1..][i - j - 1];
      }
    }
  }

  /** Every accepted address has an `@` and ends in `]` or in at least two ASCII letters. */
  lemma EmailShape(email: string)
    requires ValidateEmail(email)
    ensures '@' in email
    ensures email[|email| - 1] == ']' ||
            (|email| >= 2 && IsAsciiLetter(email[|email| - 2]) && IsAsciiLetter(email[|email| - 1]))
  {
    var k :| 0 <= k < |email| && email[k] == '@' && IsLocalPart(email[..k]) && IsDomain(email[k + 1..]);
    var d := email[k + 1..];
    if IsIpv4Literal(d) {
      assert email[|email| - 1] == d[|d| - 1];
    } else {
      var j :| 0 < j < |d| && d[j] == '.' && DotSeparated(d[..j], IsLabelChar) && IsTopLevelLabel(d[j + 1..]);
      var t := d[j + 1..];
      assert email[|email| - 1] == t[|t| - 1];
      assert email[|email| - 2] == t[|t| - 2];
    }
  }

  /** A dot-separated run of atom characters holds no whitespace. */
  lemma AtomRunHasNoWhitespace(s: string, i: int)
    requires DotSeparated(s, IsAtomChar) && 0 <= i < |s|
    ensures !IsWhitespace(s[i])
  {
    assert s[i] == '.' || IsAtomChar(s[i]);
  }

  /** Whitespace in an address that splits at `k` lies before the `@`. */
  lemma WhitespaceBeforeAt(email: string, k: int, i: int)
    requires 0 <= k < |email| && email[k] == '@' && IsDomain(email[k + 1..])
    requires 0 <= i < |email| && IsWhitespace(email[i])
    ensures i < k
  {
    if i > k {
      var d := email[k + 1..];
      DomainHasNoWhitespace(d, i - k - 1);
    }
  }

  /** Whitespace in an address that splits at `k` lies strictly inside a quoted local part. */
  lemma WhitespaceInQuotes(email: string, k: int, i: int)
    requires 0 <= k < |email| && email[k] == '@' && IsLocalPart(email[..k]) && IsDomain(email[k + 1..])
    requires 0 <= i < |email| && IsWhitespace(email[i])
    ensures 0 < i < k - 1 && email[0] == '"' && email[k - 1] == '"'
  {
    WhitespaceBeforeAt(email, k, i);
    var local := email[..k];
    assert local[i] == email[i];
    if DotSeparated(local, IsAtomChar) {
      AtomRunHasNoWhitespace(local, i);
    }
    assert IsQuotedLocal(local);
    assert email[0] == local[0];
    assert email[k - 1] == local[k - 1];
  }

  /** Whitespace is only accepted inside a quoted local part, before its closing quote and the `@`. */
  lemma WhitespaceOnlyQuoted(email: string, i: int)
    requires ValidateEmail(email)
    requires 0 <= i < |email| && IsWhitespace(email[i])
    ensures email[0] == '"'
    ensures exists q :: i < q < |email| - 1 && email[q] == '"' && email[q + 1] == '@'
  {
    var k :| 0 <= k < |email| && email[k] == '@' && IsLocalPart(email[..k]) && IsDomain(email[k + 1..]);
    WhitespaceInQuotes(email, k, i);
    assert email[k - 1] == '"' && email[k] == '@';
  }

  /** The address of the end-to-end scenario is accepted. */
  lemma SampleAddressAccepted()
    ensures ValidateEmail("a@b.com")
  {
    var e := "a@b.com";
    assert DotSeparated(e[..1], IsAtomChar);
    var d := e[2..];
    assert d == "b.com";
    assert d[..1] == "b" && DotSeparated(d[..1], IsLabelChar);
    assert d[2..] == "com" && IsTopLevelLabel(d[2..]);
    assert IsHostName(d);
  }

  /** A string without an `@` is rejected. */
  lemma NoAtRejected(s: string)
    requires '@' !in s
    ensures !ValidateEmail(s)
  {
  }
}
