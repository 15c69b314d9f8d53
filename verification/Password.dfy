/** Password strength: the flag loop of ValidatePassword against its declarative meaning, over ASCII. */
module Password {
  import opened Ascii

  datatype Verdict = Accepted | TooShort | NoUppercase | NoLowercase | NoDigit | NoSpecial

  /** Punctuation or a symbol: every other printing character except the blank. */
  predicate IsSpecial(c: char) {
    '!' <= c <= '~' && !IsUpper(c) && !IsLower(c) && !IsDigit(c)
  }

  predicate AnyUpper(s: string) { exists c :: c in s && IsUpper(c) }

  predicate AnyLower(s: string) { exists c :: c in s && IsLower(c) }

  predicate AnyDigit(s: string) { exists c :: c in s && IsDigit(c) }

  predicate AnySpecial(s: string) { exists c :: c in s && IsSpecial(c) }

  predicate Strong(password: string) {
    |password| >= 8 && AnyUpper(password) && AnyLower(password) && AnyDigit(password) && AnySpecial(password)
  }

  /** bcrypt refuses to hash more bytes. */
  const BCRYPT_LIMIT: nat := 72

  /** Strong, and short enough to be hashed. */
  predicate Storable(password: string) {
    Strong(password) && |password| <= BCRYPT_LIMIT
  }

  /** The requirement a verdict names is not met. */
  predicate Misses(password: string, verdict: Verdict) {
    match verdict
    case Accepted => false
    case TooShort => |password| < 8
    case NoUppercase => forall i :: 0 <= i < |password| ==> !IsUpper(password[i])
    case NoLowercase => forall i :: 0 <= i < |password| ==> !IsLower(password[i])
    case NoDigit => forall i :: 0 <= i < |password| ==> !IsDigit(password[i])
    case NoSpecial => forall i :: 0 <= i < |password| ==> !IsSpecial(password[i])
  }

  /** The order in which the requirements are reported. */
  const REPORTS := [TooShort, NoUppercase, NoLowercase, NoDigit, NoSpecial]

  /** The first requirement that the password misses. */
  function Judge(password: string): (verdict: Verdict)
    ensures verdict == Accepted <==> Strong(password)
  {
    if |password| < 8 then TooShort
    else if !AnyUpper(password) then NoUppercase
    else if !AnyLower(password) then NoLowercase
    else if !AnyDigit(password) then NoDigit
    else if !AnySpecial(password) then NoSpecial
    else Accepted
  }

  /** A rejected password misses the requirement it is told, and meets all that are reported before. */
  lemma FirstMissed(password: string)
    ensures var verdict := Judge(password);
            && (verdict == Accepted <==> forall v :: !Misses(password, v))
            && (verdict != Accepted ==>
                  && verdict in REPORTS && Misses(password, verdict)
                  && forall j, k :: 0 <= j < k < |REPORTS| && REPORTS[k] == verdict ==> !Misses(password, REPORTS[j]))
  {
    assert AnyUpper(password) <==> !Misses(password, NoUppercase) by { AnyByIndex(password); }
    assert AnyLower(password) <==> !Misses(password, NoLowercase) by { AnyByIndex(password); }
    assert AnyDigit(password) <==> !Misses(password, NoDigit) by { AnyByIndex(password); }
    assert AnySpecial(password) <==> !Misses(password, NoSpecial) by { AnyByIndex(password); }
    assert REPORTS[0] == TooShort && REPORTS[1] == NoUppercase && REPORTS[2] == NoLowercase;
    assert REPORTS[3] == NoDigit && REPORTS[4] == NoSpecial;
    assert Judge(password) != Accepted ==> Misses(password, Judge(password));
  }

  lemma AnyByIndex(password: string)
    ensures forall c :: c in password <==> exists i :: 0 <= i < |password| && password[i] == c
  {
  }

  /** One password for each verdict. */
  lemma VerdictExamples()
    ensures Judge("Ab1!xyz") == TooShort && Judge("ab1!wxyz") == NoUppercase && Judge("AB1!WXYZ") == NoLowercase
    ensures Judge("Abc!wxyz") == NoDigit && Judge("Abc1wxyz") == NoSpecial && Judge("Ab1!wxyz") == Accepted
  {
    LetterExamples();
    DigitExample();
    SpecialExamples();
  }

  lemma LetterExamples()
    ensures Judge("ab1!wxyz") == NoUppercase && Judge("AB1!WXYZ") == NoLowercase
  {
    HasClasses("ab1!wxyz", false, true, true, true);
    HasClasses("AB1!WXYZ", true, false, true, true);
  }

  lemma DigitExample()
    ensures Judge("Abc!wxyz") == NoDigit
  {
    HasClasses("Abc!wxyz", true, true, false, true);
  }

  lemma SpecialExamples()
    ensures Judge("Abc1wxyz") == NoSpecial && Judge("Ab1!wxyz") == Accepted
  {
    HasClasses("Abc1wxyz", true, true, true, false);
    HasClasses("Ab1!wxyz", true, true, true, true);
  }

  /** Which classes the first four characters show, the others being letters like the second. */
  lemma HasClasses(s: string, upper: bool, lower: bool, digit: bool, special: bool)
    requires |s| == 8 && forall i :: 4 <= i < 8 ==> IsUpper(s[i]) == IsUpper(s[1]) && IsLower(s[i]) == IsLower(s[1])
    requires IsUpper(s[1]) || IsLower(s[1])
    requires upper <==> IsUpper(s[0]) || IsUpper(s[1]) || IsUpper(s[2]) || IsUpper(s[3])
    requires lower <==> IsLower(s[0]) || IsLower(s[1]) || IsLower(s[2]) || IsLower(s[3])
    requires digit <==> IsDigit(s[0]) || IsDigit(s[1]) || IsDigit(s[2]) || IsDigit(s[3])
    requires special <==> IsSpecial(s[0]) || IsSpecial(s[1]) || IsSpecial(s[2]) || IsSpecial(s[3])
    ensures AnyUpper(s) == upper && AnyLower(s) == lower && AnyDigit(s) == digit && AnySpecial(s) == special
  {
    assert s[0] in s && s[1] in s && s[2] in s && s[3] in s;
    forall c | c in s
      ensures IsUpper(c) ==> upper
      ensures IsLower(c) ==> lower
      ensures IsDigit(c) ==> digit
      ensures IsSpecial(c) ==> special
    {
      var i :| 0 <= i < 8 && s[i] == c;
      assert i < 4 || (IsUpper(c) == IsUpper(s[1]) && IsLower(c) == IsLower(s[1]));
    }
  }

  method ValidatePassword(password: string) returns (verdict: Verdict)
    ensures verdict == Judge(password)
  {
    if |password| < 8 {
      return TooShort;
    }
    var hasUpper, hasLower, hasDigit, hasSpecial := false, false, false, false;
    for i := 0 to |password|
      invariant hasUpper == AnyUpper(password[..i]) && hasLower == AnyLower(password[..i])
      invariant hasDigit == AnyDigit(password[..i]) && hasSpecial == AnySpecial(password[..i])
    {
      var c := password[i];
      assert password[..i + 1] == password[..i] + [c];
      if IsUpper(c) {
        hasUpper := true;
      } else if IsLower(c) {
        hasLower := true;
      } else if IsDigit(c) {
        hasDigit := true;
      } else if IsSpecial(c) {
        hasSpecial := true;
      }
    }
    assert password[..|password|] == password;
    if !hasUpper {
      return NoUppercase;
    }
    if !hasLower {
      return NoLowercase;
    }
    if !hasDigit {
      return NoDigit;
    }
    if !hasSpecial {
      return NoSpecial;
    }
    return Accepted;
  }
}
