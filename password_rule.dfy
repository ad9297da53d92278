/** The password-strength rule of the profile form,
    `/^(?=.*[a-zA-Z])(?=.*[!@#$%^*+=-])(?=.*[0-9]).{8,25}$/`.

    The regular expression has no flags: `^` and `$` anchor at the ends of
    the whole string, matching is by UTF-16 code unit, and `.` matches every
    code unit except the four ECMAScript line terminators. `PasswordRegex`
    follows the expression piece by piece; `StrongPassword` states the rule
    outright, and `PasswordRegexExact` proves that the two agree. */
module PasswordRule {
  import opened JsText

  /** `[a-zA-Z]`: ASCII letters only. */
  predicate IsLetter(c: CodeUnit)
  {
    (Unit('a') <= c <= Unit('z')) || (Unit('A') <= c <= Unit('Z'))
  }

  /** `[0-9]`. */
  predicate IsDigit(c: CodeUnit)
  {
    Unit('0') <= c <= Unit('9')
  }

  /** `[!@#$%^*+=-]`: the trailing `-` is literal, and `&`, `_` and the
      other ASCII punctuation are not in the class. */
  predicate IsSymbol(c: CodeUnit)
  {
    c == Unit('!') || c == Unit('@') || c == Unit('#') || c == Unit('$') ||
    c == Unit('%') || c == Unit('^') || c == Unit('*') || c == Unit('+') ||
    c == Unit('=') || c == Unit('-')
  }

  /** LINE FEED, CARRIAGE RETURN, LINE SEPARATOR and PARAGRAPH SEPARATOR:
      the code units `.` does not match. */
  predicate IsLineTerminator(c: CodeUnit)
  {
    c == 0x0A || c == 0x0D || c == 0x2028 || c == 0x2029
  }

  /** The three character classes the lookaheads ask for. */
  datatype CharClass = Letters | Symbols | Digits

  predicate InClass(c: CodeUnit, k: CharClass)
  {
    match k
    case Letters => IsLetter(c)
    case Symbols => IsSymbol(c)
    case Digits => IsDigit(c)
  }

  /** Does `.*X` match at the start of `s`, where X is the class `k`?
      Either the first unit is in X, or `.` consumes it and `.*X` matches
      the rest. */
  predicate DotStarThen(s: JsString, k: CharClass)
  {
    if s == [] then false
    else InClass(s[0], k) || (!IsLineTerminator(s[0]) && DotStarThen(s[1..], k))
  }

  /** Does `.{min,max}$` match all of `s`? The end can be reached only once
      at least `min` units are consumed, and `.` consumes at most `max`. */
  predicate DotsToEnd(s: JsString, min: nat, max: nat)
  {
    if s == [] then min == 0
    else max > 0 && !IsLineTerminator(s[0]) &&
         DotsToEnd(s[1..], if min == 0 then 0 else min - 1, max - 1)
  }

  /** `passwordRegex.test(s)`: the three lookaheads at position 0, in the
      order written, then `.{8,25}$`. */
  predicate PasswordRegex(s: JsString)
  {
    DotStarThen(s, Letters) && DotStarThen(s, Symbols) && DotStarThen(s, Digits) &&
    DotsToEnd(s, 8, 25)
  }

  predicate NoLineTerminator(s: JsString)
  {
    forall i :: 0 <= i < |s| ==> !IsLineTerminator(s[i])
  }

  ghost predicate Contains(s: JsString, k: CharClass)
  {
    exists i :: 0 <= i < |s| && InClass(s[i], k)
  }

  /** The rule stated directly: 8 to 25 code units, at least one ASCII
      letter, one digit and one of `! @ # $ % ^ * + = -`, and no line
      terminator anywhere. */
  ghost predicate StrongPassword(s: JsString)
  {
    8 <= |s| <= 25 &&
    Contains(s, Letters) && Contains(s, Digits) && Contains(s, Symbols) &&
    NoLineTerminator(s)
  }

  /** `.*X` matches exactly when some unit of class X is preceded only by
      units that `.` matches. */
  lemma {:induction false} DotStarThenExact(s: JsString, k: CharClass)
    ensures DotStarThen(s, k) <==>
            exists j :: 0 <= j < |s| && InClass(s[j], k) && NoLineTerminator(s[..j])
  {
    if s == [] {
    } else if InClass(s[0], k) {
      assert NoLineTerminator(s[..0]);
    } else {
      DotStarThenExact(s[1..], k);
      if DotStarThen(s, k) {
        var j :| 0 <= j < |s| - 1 && InClass(s[1..][j], k) && NoLineTerminator(s[1..][..j]);
        assert s[..j + 1] == [s[0]] + s[1..][..j];
        assert InClass(s[j + 1], k) && NoLineTerminator(s[..j + 1]);
      }
      if exists j :: 0 <= j < |s| && InClass(s[j], k) && NoLineTerminator(s[..j]) {
        var j :| 0 <= j < |s| && InClass(s[j], k) && NoLineTerminator(s[..j]);
        assert j > 0;
        assert !IsLineTerminator(s[..j][0]);
        assert s[1..][..j - 1] == s[..j][1..];
        assert InClass(s[1..][j - 1], k) && NoLineTerminator(s[1..][..j - 1]);
      }
    }
  }

  /** `.{min,max}$` matches exactly the strings of `min` to `max` units
      with no line terminator. */
  lemma {:induction false} DotsToEndExact(s: JsString, min: nat, max: nat)
    ensures DotsToEnd(s, min, max) <==> min <= |s| <= max && NoLineTerminator(s)
  {
    if s != [] && max > 0 {
      DotsToEndExact(s[1..], if min == 0 then 0 else min - 1, max - 1);
      if NoLineTerminator(s) {
        assert NoLineTerminator(s[1..]) by {
          forall i | 0 <= i < |s| - 1 ensures !IsLineTerminator(s[1..][i]) {
            assert s[1..][i] == s[i + 1];
          }
        }
      }
      if !IsLineTerminator(s[0]) && NoLineTerminator(s[1..]) {
        forall i | 0 <= i < |s| ensures !IsLineTerminator(s[i]) {
          if i > 0 { assert s[i] == s[1..][i - 1]; }
        }
      }
    }
  }

  /** Once no unit is a line terminator, a lookahead `.*X` only asks that
      some unit be in X. */
  lemma DotStarThenNoTerminator(s: JsString, k: CharClass)
    requires NoLineTerminator(s)
    ensures DotStarThen(s, k) <==> Contains(s, k)
  {
    DotStarThenExact(s, k);
    if Contains(s, k) {
      var j :| 0 <= j < |s| && InClass(s[j], k);
      assert NoLineTerminator(s[..j]);
    }
  }

  /** The regular expression accepts exactly the strong passwords. */
  lemma PasswordRegexExact(s: JsString)
    ensures PasswordRegex(s) <==> StrongPassword(s)
  {
    DotsToEndExact(s, 8, 25);
    if NoLineTerminator(s) {
      DotStarThenNoTerminator(s, Letters);
      DotStarThenNoTerminator(s, Symbols);
      DotStarThenNoTerminator(s, Digits);
    }
  }

  /** A password the rule accepts has at least eight code units. */
  lemma AcceptedHasEightUnits(s: JsString)
    requires PasswordRegex(s)
    ensures |s| >= 8
  {
    PasswordRegexExact(s);
  }

  /** Without a unit from `! @ # $ % ^ * + = -` no password passes,
      whatever other punctuation (`&`, `_`, ...) it holds. */
  lemma NoListedSymbolFails(s: JsString)
    requires forall i :: 0 <= i < |s| ==> !IsSymbol(s[i])
    ensures !PasswordRegex(s)
  {
    PasswordRegexExact(s);
  }

  /** Unfolding `.*X` once at position `i`. */
  lemma DotStarThenStep(s: JsString, k: CharClass, i: nat)
    requires i < |s|
    ensures DotStarThen(s[i..], k) <==>
            InClass(s[i], k) || (!IsLineTerminator(s[i]) && DotStarThen(s[i + 1..], k))
  {
    assert s[i..][1..] == s[i + 1..];
  }

  /** A letter, a digit and `!` in nine units pass. */
  lemma AcceptsExample()
    ensures PasswordRegex(Js("Abcdefg1!"))
  {
    var p := Js("Abcdefg1!");
    DotStarThenStep(p, Symbols, 8);
    DotStarThenStep(p, Symbols, 7);
    DotStarThenStep(p, Symbols, 6);
    DotStarThenStep(p, Symbols, 5);
    DotStarThenStep(p, Symbols, 4);
    DotStarThenStep(p, Symbols, 3);
    DotStarThenStep(p, Symbols, 2);
    DotStarThenStep(p, Symbols, 1);
    DotStarThenStep(p, Symbols, 0);
    assert p[0..] == p;
  }

  /** Eight lower-case letters fail: no digit, no symbol. */
  lemma RejectsLettersOnly()
    ensures !PasswordRegex(Js("abcdefgh"))
  {
    var p := Js("abcdefgh");
    DotStarThenStep(p, Digits, 7);
    DotStarThenStep(p, Digits, 6);
    DotStarThenStep(p, Digits, 5);
    DotStarThenStep(p, Digits, 4);
    DotStarThenStep(p, Digits, 3);
    DotStarThenStep(p, Digits, 2);
    DotStarThenStep(p, Digits, 1);
    DotStarThenStep(p, Digits, 0);
    assert p[0..] == p;
  }

  /** Five units fail: too short. */
  lemma RejectsShort()
    ensures !PasswordRegex(Js("Abc1!"))
  {
    DotsToEndExact(Js("Abc1!"), 8, 25);
  }

  /** `&` and `_` do not stand in for a symbol. */
  lemma RejectsUnlistedPunctuation(last: char)
    requires last == '&' || last == '_'
    ensures !PasswordRegex(Js("Abcdefg1" + [last]))
  {
    var p := Js("Abcdefg1" + [last]);
    DotStarThenStep(p, Symbols, 8);
    DotStarThenStep(p, Symbols, 7);
    DotStarThenStep(p, Symbols, 6);
    DotStarThenStep(p, Symbols, 5);
    DotStarThenStep(p, Symbols, 4);
    DotStarThenStep(p, Symbols, 3);
    DotStarThenStep(p, Symbols, 2);
    DotStarThenStep(p, Symbols, 1);
    DotStarThenStep(p, Symbols, 0);
    assert p[0..] == p;
  }

  /** A line feed fails even after every lookahead is met. */
  lemma RejectsLineFeed()
    ensures !PasswordRegex(Js("Abcdefg1!\n"))
  {
    var p := Js("Abcdefg1!\n");
    DotsToEndExact(p, 8, 25);
    assert IsLineTerminator(p[9]);
  }
}
