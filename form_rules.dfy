/**
 * The two regular expressions the account forms test their fields with:
 *
 *     email  /^[^\s@]+@[^\s@]+\.[^\s@]+$/     (signup and login)
 *     phone  /^\+?[1-9]\d{1,14}$/             (signup)
 *
 * The email expression is stated twice, as the split it finds (`EmailMatches`) and
 * as a check made in one pass over the text (`EmailCheck`), proved equal; the phone
 * expression is related to the digits the number holds (`PhoneMatchesDigits`).
 */
module FormRules {
  import opened Strings

  /** A character of the class `[^\s@]`. */
  predicate Plain(c: char) {
    c != '@' && !IsSpace(c)
  }

  predicate AllPlain(s: string) {
    forall k | 0 <= k < |s| :: Plain(s[k])
  }

  /**
   * The way the email expression matches `s`: a local part `s[..i]`, the `@` at `i`,
   * a domain part `s[i + 1..j]`, a `.` at `j` and a last part `s[j + 1..]`, every
   * part a non-empty run of characters that are neither `@` nor white space.
   */
  predicate EmailSplit(s: string, i: int, j: int) {
    0 < i && i + 1 < j && j + 1 < |s| && s[i] == '@' && s[j] == '.' &&
    AllPlain(s[..i]) && AllPlain(s[i + 1..j]) && AllPlain(s[j + 1..])
  }

  /** `/^[^\s@]+@[^\s@]+\.[^\s@]+$/.test(s)`. */
  ghost predicate EmailMatches(s: string) {
    exists i, j :: EmailSplit(s, i, j)
  }

  /** The position of the first `@` or white-space character, `|s|` when there is none. */
  function FirstNonPlain(s: string): (k: nat)
    ensures k <= |s| && AllPlain(s[..k])
    ensures k < |s| ==> !Plain(s[k])
    decreases |s|
  {
    if s == [] then 0
    else if !Plain(s[0]) then 0
    else
      var k := 1 + FirstNonPlain(s[1..]);
      assert forall m | 0 < m < k :: s[..k][m] == s[1..][..k - 1][m - 1];
      k
  }

  /**
   * The email test in one pass: the first character that is not plain is an `@`
   * after at least one character, everything after it is plain, and a `.` stands
   * somewhere after the first domain character and before the last character.
   */
  predicate EmailCheck(s: string) {
    var i := FirstNonPlain(s);
    0 < i < |s| && s[i] == '@' && AllPlain(s[i + 1..]) && exists j | i + 1 < j < |s| - 1 :: s[j] == '.'
  }

  /** The one-pass check accepts exactly the addresses the expression matches. */
  lemma EmailCheckMatches(s: string)
    ensures EmailCheck(s) <==> EmailMatches(s)
  {
    if EmailCheck(s) {
      var i := FirstNonPlain(s);
      var j :| i + 1 < j < |s| - 1 && s[j] == '.';
      assert s[i + 1..j] == s[i + 1..][..j - i - 1];
      assert s[j + 1..] == s[i + 1..][j - i..];
      assert EmailSplit(s, i, j);
    } else {
      EmailCheckRefuses(s);
    }
  }

  /** Any split the expression finds has its `@` at the first character that is not plain. */
  lemma EmailCheckRefuses(s: string)
    ensures EmailMatches(s) ==>
      var i := FirstNonPlain(s);
      0 < i < |s| && s[i] == '@' && AllPlain(s[i + 1..]) && exists j | i + 1 < j < |s| - 1 :: s[j] == '.'
  {
    if EmailMatches(s) {
      var i, j :| EmailSplit(s, i, j);
      FirstNonPlainAt(s, i);
      RestPlain(s, i, j);
    }
  }

  /** The first character that is not plain is found where the plain prefix stops. */
  lemma FirstNonPlainAt(s: string, i: nat)
    requires i < |s| && AllPlain(s[..i]) && !Plain(s[i])
    ensures FirstNonPlain(s) == i
  {
    var k := FirstNonPlain(s);
    forall m | 0 <= m < i ensures Plain(s[m]) {
      assert s[..i][m] == s[m];
    }
    forall m | 0 <= m < k ensures Plain(s[m]) {
      assert s[..k][m] == s[m];
    }
  }

  /** After the `@` of a split, the domain, the `.` and the last part are all plain. */
  lemma RestPlain(s: string, i: int, j: int)
    requires EmailSplit(s, i, j)
    ensures AllPlain(s[i + 1..])
  {
    var rest := s[i + 1..];
    forall m | 0 <= m < |rest| ensures Plain(rest[m]) {
      if m < j - i - 1 {
        assert rest[m] == s[i + 1..j][m];
      } else if m > j - i - 1 {
        assert rest[m] == s[j + 1..][m - (j - i)];
      } else {
        assert rest[m] == s[j];
      }
    }
  }

  /** An address the expression accepts is never blank, so "required" fires only on blank input. */
  lemma EmailMatchesNotBlank(email: string)
    requires EmailMatches(email)
    ensures !Blank(email)
  {
    var i, j :| EmailSplit(email, i, j);
    assert email[..i][0] == email[0];
  }

  /** `/^\+?[1-9]\d{1,14}$/.test(s)`: an optional `+`, then 2 to 15 digits of which the first is not `0`. */
  predicate PhoneMatches(s: string) {
    var t := if s != [] && s[0] == '+' then s[1..] else s;
    2 <= |t| <= 15 && AllDigits(t) && t[0] != '0'
  }

  /**
   * A phone number passes exactly when, apart from a leading `+`, it is made of
   * digits only, 2 to 15 of them, and does not start with `0`: the shape of an
   * international number in ITU-T E.164, which has at most 15 digits.
   */
  lemma PhoneMatchesDigits(s: string)
    ensures PhoneMatches(s) <==>
      (s == DigitsOnly(s) || s == "+" + DigitsOnly(s)) &&
      2 <= |DigitsOnly(s)| <= 15 && DigitsOnly(s)[0] != '0'
  {
    SelfDigitsOnly(s);
    if s != [] && s[0] == '+' {
      var t := s[1..];
      assert s == "+" + t;
      DigitsOnlyAppend("+", t);
      assert DigitsOnly("+") == [];
      assert DigitsOnly(s) == DigitsOnly(t);
      assert s != DigitsOnly(s) by { assert !IsDigit(s[0]); }
      assert s == "+" + DigitsOnly(s) <==> t == DigitsOnly(t);
      SelfDigitsOnly(t);
    } else {
      assert s != "+" + DigitsOnly(s);
    }
  }

  /** A string is its own digits exactly when it is made of digits. */
  lemma SelfDigitsOnly(s: string)
    ensures s == DigitsOnly(s) <==> AllDigits(s)
  {
  }
}
