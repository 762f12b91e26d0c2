/** `is_valid_email`, which appears with the same code in `python/email_utils.py` and in
    `email_service/src/email_service/email_utils.py`: a match of the whole address against
    `L@D.T`, where L is one or more of `[A-Za-z0-9._%+-]`, D one or more of
    `[A-Za-z0-9.-]` and T two or more ASCII letters. */
module Email {
  import opened Wrappers
  import opened Text

  predicate Letter(c: char)
  {
    'a' <= c <= 'z' || 'A' <= c <= 'Z'
  }

  predicate Digit(c: char)
  {
    '0' <= c <= '9'
  }

  /** `[a-zA-Z0-9._%+-]` */
  predicate LocalChar(c: char)
  {
    Letter(c) || Digit(c) || c in "._%+-"
  }

  /** `[a-zA-Z0-9.-]` */
  predicate DomainChar(c: char)
  {
    Letter(c) || Digit(c) || c == '.' || c == '-'
  }

  predicate AllLocal(s: string)
  {
    forall k :: 0 <= k < |s| ==> LocalChar(s[k])
  }

  predicate AllDomain(s: string)
  {
    forall k :: 0 <= k < |s| ==> DomainChar(s[k])
  }

  predicate AllLetters(s: string)
  {
    forall k :: 0 <= k < |s| ==> Letter(s[k])
  }

  /** `b` is L, then `@` at `i`, then D, then `.` at `j`, then T. */
  predicate SplitsAt(b: string, i: nat, j: nat)
  {
    && 1 <= i && i + 1 < j && j + 3 <= |b|
    && b[i] == '@' && b[j] == '.'
    && AllLocal(b[..i]) && AllDomain(b[i + 1..j]) && AllLetters(b[j + 1..])
  }

  /** The language of the pattern, as a reference definition. */
  ghost predicate InLanguage(b: string)
  {
    exists i: nat, j: nat :: SplitsAt(b, i, j)
  }

  /** `re.match(pattern, email) is not None`: the match is anchored at the start, and `$`
      matches at the end or just before one newline that ends the string. */
  ghost predicate Matches(email: string)
  {
    InLanguage(email) || (|email| > 0 && email[|email| - 1] == '\n' && InLanguage(email[..|email| - 1]))
  }

  /** Index of the last occurrence of `c` in `s`. */
  function LastIndexOf(s: string, c: char): (r: Option<nat>)
    ensures r.None? <==> c !in s
    ensures r.Some? ==> r.value < |s| && s[r.value] == c && c !in s[r.value + 1..]
  {
    if s == [] then None
    else if s[|s| - 1] == c then Some(|s| - 1)
    else
      var r := LastIndexOf(s[..|s| - 1], c);
      assert s == s[..|s| - 1] + [s[|s| - 1]];
      if r.Some? then assert s[r.value + 1..] == s[..|s| - 1][r.value + 1..] + [s[|s| - 1]]; r
      else r
  }

  /** The address without the one newline `$` may skip. */
  function Body(email: string): string
  {
    if |email| > 0 && email[|email| - 1] == '\n' then email[..|email| - 1] else email
  }

  /** The check on the body, at the first `@` and the last `.`. */
  predicate ValidBody(b: string)
  {
    match IndexOf(b, '@')
    case None => false
    case Some(i) =>
      match LastIndexOf(b, '.')
      case None => false
      case Some(j) => SplitsAt(b, i, j)
  }

  /** The local part holds no `@` and the top-level domain no `.`, so a match can only
      split at the first `@` and the last `.`. */
  lemma ValidBodyInLanguage(b: string)
    ensures ValidBody(b) <==> InLanguage(b)
  {
    if InLanguage(b) {
      var i: nat, j: nat :| SplitsAt(b, i, j);
      assert b[..i][i - 1] == b[i - 1];
      assert '@' !in b[..i] by {
        forall k | 0 <= k < i ensures b[..i][k] != '@' {
          assert LocalChar(b[..i][k]);
        }
      }
      assert IndexOf(b, '@') == Some(i);
      assert '.' !in b[j + 1..] by {
        var t := b[j + 1..];
        forall k | 0 <= k < |t| ensures t[k] != '.' {
          assert Letter(t[k]);
        }
      }
      assert LastIndexOf(b, '.') == Some(j);
    }
  }

  /** `is_valid_email(email)` */
  function IsValidEmail(email: string): (r: bool)
    ensures r <==> Matches(email)
  {
    ValidBodyInLanguage(Body(email));
    ValidBodyInLanguage(email);
    if |email| > 0 && email[|email| - 1] == '\n' then
      assert !InLanguage(email);
      ValidBody(Body(email))
    else ValidBody(email)
  }

  /** In a string of the language, the only `@` is the one after the local part. */
  lemma OnlyAt(b: string, i: nat, j: nat)
    requires SplitsAt(b, i, j)
    ensures forall k :: 0 <= k < |b| && b[k] == '@' ==> k == i
  {
    forall k | 0 <= k < i ensures b[k] != '@' {
      assert LocalChar(b[..i][k]);
    }
    forall k | i < k < j ensures b[k] != '@' {
      assert DomainChar(b[i + 1..j][k - i - 1]);
    }
    forall k | j < k < |b| ensures b[k] != '@' {
      assert Letter(b[j + 1..][k - j - 1]);
    }
  }

  /** A valid address holds exactly one `@`. */
  lemma ValidHasOneAt(email: string)
    requires IsValidEmail(email)
    ensures exists i :: 0 <= i < |email| && email[i] == '@'
    ensures forall k, l :: 0 <= k < l < |email| && email[k] == '@' ==> email[l] != '@'
  {
    var b := Body(email);
    assert InLanguage(b);
    var i: nat, j: nat :| SplitsAt(b, i, j);
    OnlyAt(b, i, j);
    assert forall k :: 0 <= k < |b| ==> email[k] == b[k];
    assert email[i] == '@';
  }

  /** The addresses the test suite accepts, and the trailing newline `$` lets through. */
  lemma ValidExamples()
    ensures IsValidEmail("user@example.com")
    ensures IsValidEmail("user@example.com\n")
  {
    assert SplitsAt("user@example.com", 4, 12);
    assert "user@example.com\n"[..16] == "user@example.com";
  }

  /** An address without `@` is rejected. */
  lemma NoAtIsInvalid()
    ensures !IsValidEmail("invalid_email")
  {
    assert '@' !in "invalid_email";
  }

  /** An address without a `.` after the `@` is rejected. */
  lemma NoDotIsInvalid()
    ensures !IsValidEmail("user@example")
  {
    var e := "user@example";
    assert Body(e) == e;
    assert forall k :: 0 <= k < |e| ==> e[k] != '.';
    assert LastIndexOf(e, '.').None?;
  }

  /** An empty local part is rejected. */
  lemma EmptyLocalPartIsInvalid()
    ensures !IsValidEmail("@example.com")
  {
    assert IndexOf("@example.com", '@') == Some(0);
  }

  /** A top-level domain holding a digit is rejected. */
  lemma DigitInTopLevelDomainIsInvalid()
    ensures !IsValidEmail("user@example.c0m")
  {
    IndexOfFirst("user", '@', "example.c0m");
    LastIndexOfLast("user@example", '.', "c0m");
    assert !Letter("user@example.c0m"[13..][1]);
  }

  /** The last `c` of `a + [c] + b` is the one after `a` when `b` holds none. */
  lemma LastIndexOfLast(a: string, c: char, b: string)
    requires c !in b
    ensures LastIndexOf(a + [c] + b, c) == Some(|a|)
  {
    var s := a + [c] + b;
    assert s[|a|] == c;
    assert s[|a| + 1..] == b;
  }
}
