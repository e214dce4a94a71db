/**
  The field validators of the gateway's `pkg` package. Each is a total function of one string
  and touches no state.

  Strings are sequences of runes (Unicode scalar values). The validated fields reach the
  gateway through JSON binding, which always yields valid UTF-8, so the Go string is the UTF-8
  encoding of the rune sequence and Go's `len` is `ByteLen` below.
*/
module Validations {
  import opened Wrappers

  const FullNameError := "full name's length must be 2"
  const BlankPasswordError := "password cannot be blank"
  const PasswordLengthError := "password length should be 8 to 30 characters"
  const PasswordCharsetError :=
    "password should contain only alphabetic characters, numbers and special characters(@, $, _, ., #)"
  const PhoneError := "phone number must be +998"

  // ---------------------------------------------------------------------------------------
  // strings.Split with a one-rune separator, and Go's byte length
  // ---------------------------------------------------------------------------------------

  /** `strings.Split(s, [sep])`: the pieces between separators; there is always one more piece
      than there are separators, so the empty string gives one empty piece. */
  function Split(s: string, sep: char): (parts: seq<string>)
    ensures |parts| >= 1
  {
    if s == [] then [[]]
    else
      var rest := Split(s[1..], sep);
      if s[0] == sep then [[]] + rest
      else [[s[0]] + rest[0]] + rest[1..]
  }

  /** Number of occurrences of `c` in `s`. */
  function Count(s: string, c: char): nat
  {
    if s == [] then 0 else (if s[0] == c then 1 else 0) + Count(s[1..], c)
  }

  /** `strings.Join(parts, [sep])`, the inverse of `Split`. */
  function Join(parts: seq<string>, sep: char): string
    requires |parts| >= 1
  {
    if |parts| == 1 then parts[0] else parts[0] + [sep] + Join(parts[1..], sep)
  }

  lemma {:induction false} SplitCount(s: string, sep: char)
    ensures |Split(s, sep)| == Count(s, sep) + 1
  {
    if s != [] {
      SplitCount(s[1..], sep);
    }
  }

  lemma {:induction false} CountZero(s: string, c: char)
    ensures Count(s, c) == 0 <==> c !in s
  {
    if s != [] {
      CountZero(s[1..], c);
      assert s == [s[0]] + s[1..];
    }
  }

  /** Joining the pieces back with the separator restores the string. */
  lemma {:induction false} SplitJoin(s: string, sep: char)
    ensures Join(Split(s, sep), sep) == s
  {
    if s != [] {
      var rest := Split(s[1..], sep);
      SplitJoin(s[1..], sep);
      if s[0] == sep {
        assert ([[]] + rest)[1..] == rest;
      } else if |rest| > 1 {
        var parts := [[s[0]] + rest[0]] + rest[1..];
        assert parts[1..] == rest[1..];
        assert Join(rest, sep) == rest[0] + [sep] + Join(rest[1..], sep);
      }
    }
  }

  /** No piece contains the separator. */
  lemma {:induction false} SplitPiecesAreSeparatorFree(s: string, sep: char)
    ensures forall i :: 0 <= i < |Split(s, sep)| ==> sep !in Split(s, sep)[i]
  {
    if s != [] {
      SplitPiecesAreSeparatorFree(s[1..], sep);
    }
  }

  /** Number of bytes of the UTF-8 encoding of one rune. */
  function Utf8Width(c: char): (w: nat)
    ensures 1 <= w <= 4
    ensures w == 1 <==> c as int < 0x80
  {
    if c as int < 0x80 then 1
    else if c as int < 0x800 then 2
    else if c as int < 0x1_0000 then 3
    else 4
  }

  /** Go's `len` of the UTF-8 string spelling `s`: between one and four bytes per rune. */
  function ByteLen(s: string): (n: nat)
    ensures |s| <= n <= 4 * |s|
  {
    if s == [] then 0 else Utf8Width(s[0]) + ByteLen(s[1..])
  }

  predicate IsAscii(s: string)
  {
    forall i :: 0 <= i < |s| ==> s[i] as int < 0x80
  }

  /** On ASCII text bytes and runes coincide. */
  lemma {:induction false} AsciiByteLen(s: string)
    requires IsAscii(s)
    ensures ByteLen(s) == |s|
  {
    if s != [] {
      AsciiByteLen(s[1..]);
    }
  }

  // ---------------------------------------------------------------------------------------
  // regexp.MatchString on the two patterns the validators use
  // ---------------------------------------------------------------------------------------

  /** The two regular expressions of the package: `^[A-Za-z0-9$_@.#]+$` and `^\+998\d{9}$`. */
  datatype Pattern = PasswordCharset | PhoneFormat

  predicate IsAsciiDigit(c: char)
  {
    '0' <= c <= '9'
  }

  predicate InPasswordClass(c: char)
  {
    ('A' <= c <= 'Z') || ('a' <= c <= 'z') || IsAsciiDigit(c) || c in "$_@.#"
  }

  /** What each pattern matches. Both are anchored at the ends of the text; `\d` is ASCII only. */
  predicate Matches(p: Pattern, s: string)
  {
    match p
    case PasswordCharset =>
      |s| > 0 && forall i :: 0 <= i < |s| ==> InPasswordClass(s[i])
    case PhoneFormat =>
      |s| == 13 && s[..4] == "+998" && forall i :: 4 <= i < 13 ==> IsAsciiDigit(s[i])
  }

  /** `regexp.MatchString(pattern, s)`: the match result and the error, which is non-nil only
      when the pattern does not compile. Both patterns are valid constants, so it is always nil. */
  datatype MatchResult = MatchResult(matched: bool, err: Option<string>)

  function MatchString(p: Pattern, s: string): (r: MatchResult)
    ensures r.err == None
    ensures r.matched ==> IsAscii(s) && |s| >= 1
    ensures r.matched && p == PhoneFormat ==> |s| == 13 && s[0] == '+'
  {
    MatchResult(Matches(p, s), None)
  }

  // ---------------------------------------------------------------------------------------
  // The validators, as written
  // ---------------------------------------------------------------------------------------

  /** `ValidateFullName`: fails when splitting on one space gives fewer than two pieces. */
  function ValidateFullName(name: string): (r: Outcome)
    ensures r == Pass <==> ' ' in name
    ensures r != Pass ==> r == Fail(FullNameError)
  {
    SplitCount(name, ' ');
    CountZero(name, ' ');
    if |Split(name, ' ')| < 2 then Fail(FullNameError) else Pass
  }

  /** `ValidatePassword`: blankness, then byte length, then a charset match whose result is
      discarded: only the (always nil) compile error is tested. */
  function ValidatePassword(password: string): (r: Outcome)
    ensures r == Pass <==> 8 <= ByteLen(password) <= 30
    ensures password == "" ==> r == Fail(BlankPasswordError)
    ensures password != "" && !(8 <= ByteLen(password) <= 30) ==> r == Fail(PasswordLengthError)
    ensures r != Fail(PasswordCharsetError)
  {
    if password == "" then Fail(BlankPasswordError)
    else if ByteLen(password) < 8 || ByteLen(password) > 30 then Fail(PasswordLengthError)
    else
      var m := MatchString(PasswordCharset, password);
      if m.err.Some? then Fail(PasswordCharsetError) else Pass
  }

  /** `ValidatePhone`: the match result is discarded and the compile error is nil, so every
      phone passes. */
  function ValidatePhone(phone: string): (r: Outcome)
    ensures r == Pass
  {
    var m := MatchString(PhoneFormat, phone);
    if m.err.Some? then Fail(PhoneError) else Pass
  }

  /** The runes `strings.EqualFold` identifies with the lower-case ASCII letter `lower`: the
      letter, its upper case, and for 's' and 'k' the long s (U+017F) and the Kelvin sign
      (U+212A), which Unicode simple case folding puts in the same orbit. */
  predicate FoldsTo(c: char, lower: char)
    requires 'a' <= lower <= 'z'
  {
    c == lower
    || c as int == lower as int - 32
    || (lower == 's' && c == '\U{017F}')
    || (lower == 'k' && c == '\U{212A}')
  }

  /** Simple case folding onto the lower-case ASCII letters: upper-case ASCII letters are
      lowered, the long s and the Kelvin sign go to 's' and 'k', every other rune stays. */
  function Fold(c: char): char
  {
    if 'A' <= c <= 'Z' then (c as int + 32) as char
    else if c == '\U{017F}' then 's'
    else if c == '\U{212A}' then 'k'
    else c
  }

  /** A rune folds to a lower-case letter exactly when `Fold` maps it there. */
  lemma FoldsToIff()
    ensures forall c: char, lower: char {:trigger FoldsTo(c, lower)} ::
              'a' <= lower <= 'z' ==> (FoldsTo(c, lower) <==> Fold(c) == lower)
  {
  }

  predicate IsLowerAsciiWord(t: string)
  {
    forall i :: 0 <= i < |t| ==> 'a' <= t[i] <= 'z'
  }

  /** `strings.EqualFold(s, t)` for a second operand made of lower-case ASCII letters: rune by
      rune, each rune of `s` folds to the letter of `t` at the same position. */
  predicate EqualFold(s: string, t: string): (b: bool)
    requires IsLowerAsciiWord(t)
    ensures b <==> |s| == |t| && forall i :: 0 <= i < |s| ==> Fold(s[i]) == t[i]
  {
    FoldsToIff();
    |s| == |t| && forall i :: 0 <= i < |s| ==> FoldsTo(s[i], t[i])
  }

  /** `ValidateDay`: true unless the day is "sunday" in any letter case. */
  function ValidateDay(day: string): (r: bool)
    ensures !r <==> |day| == 6 && forall i :: 0 <= i < 6 ==> Fold(day[i]) == "sunday"[i]
  {
    !EqualFold(day, "sunday")
  }

  // ---------------------------------------------------------------------------------------
  // What the validators enforce
  // ---------------------------------------------------------------------------------------

  /** Only the space separates: a tab does not. */
  lemma FullNameRejections()
    ensures ValidateFullName("") == Fail(FullNameError)
    ensures ValidateFullName("John") == Fail(FullNameError)
    ensures ValidateFullName("John\tSmith") == Fail(FullNameError)
  {
  }

  /** One space is enough, even a trailing one. */
  lemma FullNameAcceptances()
    ensures ValidateFullName("John Smith") == Pass
    ensures ValidateFullName("John ") == Pass
  {
    assert "John Smith"[4] == ' ';
    assert "John "[4] == ' ';
  }

  /** The charset is never enforced: a password with a space and a '!' passes. */
  lemma PasswordCharsetIsInert()
    ensures !Matches(PasswordCharset, "pass word!")
    ensures ValidatePassword("pass word!") == Pass
  {
    assert !InPasswordClass("pass word!"[4]);
    AsciiByteLen("pass word!");
  }

  /** The length bound counts bytes, not runes: four Cyrillic letters (eight bytes) pass, three
      (six bytes) and seven ASCII letters fail. */
  lemma PasswordLengthCountsBytes()
    ensures ValidatePassword("\U{0430}\U{0431}\U{0432}\U{0433}") == Pass
    ensures ValidatePassword("\U{0430}\U{0431}\U{0432}") == Fail(PasswordLengthError)
    ensures ValidatePassword("abcdefg") == Fail(PasswordLengthError)
    ensures ValidatePassword("") == Fail(BlankPasswordError)
  {
    AsciiByteLen("abcdefg");
  }

  /** The phone format is never enforced. */
  lemma PhoneFormatIsInert()
    ensures Matches(PhoneFormat, "+998901234567")
    ensures !Matches(PhoneFormat, "12345") && ValidatePhone("12345") == Pass
  {
  }

  /** ASCII lower-casing, the reference for case-insensitive comparison of ASCII text. */
  function AsciiLower(c: char): char
  {
    if 'A' <= c <= 'Z' then (c as int + 32) as char else c
  }

  function ToLowerAscii(s: string): (r: string)
    ensures |r| == |s|
  {
    if s == [] then [] else [AsciiLower(s[0])] + ToLowerAscii(s[1..])
  }

  /** On ASCII text, `EqualFold` against a lower-case word is equality after lower-casing. */
  lemma {:induction false} EqualFoldAscii(s: string, t: string)
    requires IsAscii(s) && IsLowerAsciiWord(t)
    ensures EqualFold(s, t) <==> ToLowerAscii(s) == t
  {
    if s != [] && t != [] {
      EqualFoldAscii(s[1..], t[1..]);
      assert IsLowerAsciiWord(t[1..]);
      if EqualFold(s, t) {
        assert FoldsTo(s[0], t[0]);
        assert EqualFold(s[1..], t[1..]);
        assert t == [t[0]] + t[1..];
      }
      if ToLowerAscii(s) == t {
        assert AsciiLower(s[0]) == t[0];
        assert ToLowerAscii(s[1..]) == t[1..];
        forall i | 0 <= i < |s|
          ensures FoldsTo(s[i], t[i])
        {
          if i > 0 {
            assert FoldsTo(s[1..][i - 1], t[1..][i - 1]);
          }
        }
      }
    }
  }

  /** On ASCII text, a day is rejected exactly when it lower-cases to "sunday". */
  lemma ValidateDayAscii(day: string)
    requires IsAscii(day)
    ensures !ValidateDay(day) <==> ToLowerAscii(day) == "sunday"
  {
    EqualFoldAscii(day, "sunday");
  }

  /** Any letter case, and the long s, spell the rejected day. */
  lemma DayRejections()
    ensures !ValidateDay("Sunday") && !ValidateDay("SUNDAY") && !ValidateDay("sUnDaY")
    ensures !ValidateDay("\U{017F}unday")
  {
  }

  /** Other days, padded text and the empty string are accepted. */
  lemma DayAcceptances()
    ensures ValidateDay("monday") && ValidateDay("sunday ") && ValidateDay("")
  {
    assert Fold("monday"[0]) != "sunday"[0];
  }
}
