/** The three input validators: email shape, password strength and bounded
    non-blank strings. Each takes an arbitrary request value and is false for
    anything that is not a string. */
module Validators {
  import opened Js

  predicate NoWhitespace(s: string) {
    forall k :: 0 <= k < |s| ==> !IsWhitespace(s[k])
  }

  predicate AllWhitespace(s: string) {
    forall k :: 0 <= k < |s| ==> IsWhitespace(s[k])
  }

  // ---------------------------------------------------------------------------
  // validateEmail: /^\S+@\S+\.\S+$/

  /** The strings the regular expression describes, written as the
      concatenation it matches: three non-empty runs of non-whitespace
      separated by `@` and `.`. */
  function EmailParts(local: string, domain: string, tld: string): string {
    local + ['@'] + domain + ['.'] + tld
  }

  ghost predicate MatchesEmailPattern(s: string) {
    exists local, domain, tld ::
      s == EmailParts(local, domain, tld)
      && |local| > 0 && |domain| > 0 && |tld| > 0
      && NoWhitespace(local) && NoWhitespace(domain) && NoWhitespace(tld)
  }

  /** The index form the check is computed in: an `@` at some i >= 1 and a
      later `.` at some j with i + 2 <= j <= |s| - 2, in a string without
      whitespace. */
  predicate EmailShape(s: string) {
    NoWhitespace(s)
    && exists i, j | 1 <= i && i + 2 <= j < |s| - 1 :: s[i] == '@' && s[j] == '.'
  }

  function ValidateEmail(email: JsValue): (r: bool)
    ensures r <==> email.Str? && MatchesEmailPattern(email.s)
  {
    if email.Str? then
      EmailShapeMatchesPattern(email.s);
      EmailShape(email.s)
    else false
  }

  lemma EmailShapeMatchesPattern(s: string)
    ensures EmailShape(s) <==> MatchesEmailPattern(s)
  {
    if EmailShape(s) {
      var i, j :| 1 <= i && i + 2 <= j < |s| - 1 && s[i] == '@' && s[j] == '.';
      var local, domain, tld := s[..i], s[i + 1..j], s[j + 1..];
      assert s == EmailParts(local, domain, tld) by {
        assert s == s[..i] + [s[i]] + s[i + 1..j] + [s[j]] + s[j + 1..];
      }
      assert NoWhitespace(local) && NoWhitespace(domain) && NoWhitespace(tld) by {
        forall k | 0 <= k < |domain| ensures !IsWhitespace(domain[k]) {
          assert domain[k] == s[i + 1 + k];
        }
        forall k | 0 <= k < |tld| ensures !IsWhitespace(tld[k]) {
          assert tld[k] == s[j + 1 + k];
        }
      }
    }
    if MatchesEmailPattern(s) {
      var local, domain, tld :|
        s == EmailParts(local, domain, tld)
        && |local| > 0 && |domain| > 0 && |tld| > 0
        && NoWhitespace(local) && NoWhitespace(domain) && NoWhitespace(tld);
      var i, j := |local|, |local| + 1 + |domain|;
      assert s[i] == '@' && s[j] == '.';
      forall k | 0 <= k < |s| ensures !IsWhitespace(s[k]) {
        if k < i {
          assert s[k] == local[k];
        } else if i < k < j {
          assert s[k] == domain[k - i - 1];
        } else if j < k {
          assert s[k] == tld[k - j - 1];
        }
      }
    }
  }

  lemma EmailExamples()
    ensures ValidateEmail(Str("alice@x.com"))
    ensures ValidateEmail(Str("a@b.c"))
    ensures !ValidateEmail(Str("@x.com"))
    ensures !ValidateEmail(Str("a@.com"))
    ensures !ValidateEmail(Str("a@b."))
    ensures !ValidateEmail(Str("a b@x.com"))
    ensures !ValidateEmail(Null) && !ValidateEmail(Num(1))
  {
    assert EmailShape("alice@x.com") by {
      var s := "alice@x.com";
      assert s[5] == '@' && s[7] == '.';
    }
    assert EmailShape("a@b.c") by {
      var s := "a@b.c";
      assert s[1] == '@' && s[3] == '.';
    }
    var s := "a b@x.com";
    assert IsWhitespace(s[1]);
  }

  // ---------------------------------------------------------------------------
  // validatePassword

  predicate HasUpper(p: string) {
    exists k | 0 <= k < |p| :: 'A' <= p[k] <= 'Z'
  }

  predicate HasLower(p: string) {
    exists k | 0 <= k < |p| :: 'a' <= p[k] <= 'z'
  }

  predicate HasDigit(p: string) {
    exists k | 0 <= k < |p| :: '0' <= p[k] <= '9'
  }

  predicate IsAlphanumeric(c: char) {
    ('A' <= c <= 'Z') || ('a' <= c <= 'z') || ('0' <= c <= '9')
  }

  /** `/[^A-Za-z0-9]/`: some character outside the three ranges. */
  predicate HasSymbol(p: string) {
    exists k | 0 <= k < |p| :: !IsAlphanumeric(p[k])
  }

  /** Eight code units make at least four characters, and the upper-case
      letter alone keeps a valid password from being blank. */
  function ValidatePassword(password: JsValue): (ok: bool)
    ensures ok ==> password.Str? && 4 <= |password.s| && !AllWhitespace(password.s)
  {
    if password.Str? then
      Utf16LengthBounds(password.s);
      && Utf16Length(password.s) >= 8
      && HasUpper(password.s)
      && HasLower(password.s)
      && HasDigit(password.s)
      && HasSymbol(password.s)
    else false
  }

  /** Every condition is a lower bound or an existence test, so a valid
      password stays valid whatever is appended to it. */
  lemma PasswordExtension(p: string, q: string)
    requires ValidatePassword(Str(p))
    ensures ValidatePassword(Str(p + q))
  {
    Utf16LengthAppend(p, q);
    var pq := p + q;
    var u :| 0 <= u < |p| && 'A' <= p[u] <= 'Z';
    assert pq[u] == p[u];
    var l :| 0 <= l < |p| && 'a' <= p[l] <= 'z';
    assert pq[l] == p[l];
    var d :| 0 <= d < |p| && '0' <= p[d] <= '9';
    assert pq[d] == p[d];
    var y :| 0 <= y < |p| && !IsAlphanumeric(p[y]);
    assert pq[y] == p[y];
  }

  lemma PasswordExamples()
    ensures ValidatePassword(Str("Aa1!aaaa"))
    ensures !ValidatePassword(Str("Aa1!aaa"))
    ensures !ValidatePassword(Str("aa1!aaaa"))
    ensures !ValidatePassword(Str("Aa1aaaaa"))
    ensures !ValidatePassword(Num(12345678))
  {
    var p := "Aa1!aaaa";
    assert 'A' <= p[0] <= 'Z' && 'a' <= p[1] <= 'z' && '0' <= p[2] <= '9' && !IsAlphanumeric(p[3]);
    var q := "Aa1aaaaa";
    assert forall k | 0 <= k < |q| :: IsAlphanumeric(q[k]);
    var r := "aa1!aaaa";
    assert forall k | 0 <= k < |r| :: !('A' <= r[k] <= 'Z');
  }

  // ---------------------------------------------------------------------------
  // validateString

  /** `String.prototype.trim`, as its two halves. */
  function TrimStart(s: string): (r: string)
    ensures |r| <= |s| && r == s[|s| - |r|..]
    ensures AllWhitespace(s[..|s| - |r|])
    ensures r == [] || !IsWhitespace(r[0])
  {
    if s != [] && IsWhitespace(s[0]) then
      var r := TrimStart(s[1..]);
      assert s[..|s| - |r|] == [s[0]] + s[1..][..|s| - 1 - |r|];
      r
    else s
  }

  function TrimEnd(s: string): (r: string)
    ensures |r| <= |s| && r == s[..|r|]
    ensures AllWhitespace(s[|r|..])
    ensures r == [] || !IsWhitespace(r[|r| - 1])
  {
    if s != [] && IsWhitespace(s[|s| - 1]) then
      var r := TrimEnd(s[..|s| - 1]);
      assert s[|r|..] == s[..|s| - 1][|r|..] + [s[|s| - 1]];
      r
    else s
  }

  function Trim(s: string): (r: string)
    ensures r == [] <==> AllWhitespace(s)
  {
    var t := TrimStart(s);
    assert t != [] ==> !IsWhitespace(s[|s| - |t|]);
    assert s[..|s|] == s;
    TrimEnd(t)
  }

  /** `validateString(field, max = 100)`: non-blank after trimming and at most
      `max` UTF-16 code units long. */
  function ValidateString(field: JsValue, max: int := 100): (r: bool)
    ensures r <==> field.Str? && !AllWhitespace(field.s) && Utf16Length(field.s) <= max
    ensures r ==> 0 < |field.s| <= max
  {
    if field.Str? then
      Utf16LengthBounds(field.s);
      Utf16Length(Trim(field.s)) > 0 && Utf16Length(field.s) <= max
    else false
  }

  lemma StringExamples()
    ensures ValidateString(Str(" Bob "))
    ensures !ValidateString(Str(" \t\n"))
    ensures !ValidateString(Str(""))
    ensures !ValidateString(Str("abc"), 2)
    ensures !ValidateString(Undefined)
  {
    var b := " Bob ";
    assert !IsWhitespace(b[1]);
  }
}
