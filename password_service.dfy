/** The password strength policy of PasswordService.validatePasswordStrength.
    Hashing and verification (bcrypt) are not modelled here. */
module PasswordService {
  import opened Ascii

  const TooShortMessage := "Password must be at least 8 characters long"
  const TooLongMessage := "Password must be less than 128 characters long"
  const NoDigitMessage := "Password must contain at least one number"
  const NoUpperMessage := "Password must contain at least one uppercase letter"
  const NoLowerMessage := "Password must contain at least one lowercase letter"
  const NoSpecialMessage := "Password must contain at least one special character"

  const MinLength := 8
  const MaxLength := 128

  /** The fixed set of characters that count as "special". */
  const SpecialCharacters := "!@#$%^&*()_+-=[]{}|;:,.<>?"

  predicate IsSpecial(c: char) { c in SpecialCharacters }

  /** The character classes the policy asks `password.any { ... }` about. */
  datatype CharClass = Digits | Uppers | Lowers | Specials

  predicate InClass(c: char, k: CharClass) {
    match k
    case Digits => IsDigit(c)
    case Uppers => IsUpper(c)
    case Lowers => IsLower(c)
    case Specials => IsSpecial(c)
  }

  predicate HasAny(p: string, k: CharClass) {
    exists i :: 0 <= i < |p| && InClass(p[i], k)
  }

  /** The six rules of the policy, in the order their messages appear. */
  datatype Rule = AtLeastMin | AtMostMax | HasDigit | HasUpper | HasLower | HasSpecial

  const Rules: seq<Rule> := [AtLeastMin, AtMostMax, HasDigit, HasUpper, HasLower, HasSpecial]

  predicate Satisfies(p: string, r: Rule) {
    match r
    case AtLeastMin => |p| >= MinLength
    case AtMostMax => |p| <= MaxLength
    case HasDigit => HasAny(p, Digits)
    case HasUpper => HasAny(p, Uppers)
    case HasLower => HasAny(p, Lowers)
    case HasSpecial => HasAny(p, Specials)
  }

  function Message(r: Rule): string {
    match r
    case AtLeastMin => TooShortMessage
    case AtMostMax => TooLongMessage
    case HasDigit => NoDigitMessage
    case HasUpper => NoUpperMessage
    case HasLower => NoLowerMessage
    case HasSpecial => NoSpecialMessage
  }

  /** One message for each rule of `rules` that `p` fails, in rule order. */
  function Violations(p: string, rules: seq<Rule>): seq<string> {
    if rules == [] then []
    else
      var last := rules[|rules| - 1];
      Violations(p, rules[..|rules| - 1]) + (if Satisfies(p, last) then [] else [Message(last)])
  }

  /** The reference definition of the policy's answer. */
  function PasswordErrors(p: string): seq<string> {
    Violations(p, Rules)
  }

  /** The whole policy holds. */
  predicate StrongPassword(p: string) {
    MinLength <= |p| <= MaxLength &&
    HasAny(p, Digits) && HasAny(p, Uppers) && HasAny(p, Lowers) && HasAny(p, Specials)
  }

  function MessageIf(failed: bool, msg: string): seq<string> {
    if failed then [msg] else []
  }

  /** The contribution of one rule: its message if `p` fails it. */
  function Contribution(p: string, r: Rule): seq<string> {
    MessageIf(!Satisfies(p, r), Message(r))
  }

  /** The reference definition spelled out as six conditional appends. */
  lemma PasswordErrorsUnfold(p: string)
    ensures PasswordErrors(p) ==
      Contribution(p, AtLeastMin) + Contribution(p, AtMostMax) +
      Contribution(p, HasDigit) + Contribution(p, HasUpper) +
      Contribution(p, HasLower) + Contribution(p, HasSpecial)
  {
    var r6 := Rules;
    var r5 := [AtLeastMin, AtMostMax, HasDigit, HasUpper, HasLower];
    var r4 := [AtLeastMin, AtMostMax, HasDigit, HasUpper];
    var r3 := [AtLeastMin, AtMostMax, HasDigit];
    var r2 := [AtLeastMin, AtMostMax];
    var r1 := [AtLeastMin];
    assert r6[..5] == r5 && r5[..4] == r4 && r4[..3] == r3;
    assert r3[..2] == r2 && r2[..1] == r1 && r1[..0] == [];
    ViolationsStep(p, r1);
    assert Violations(p, r1) == Contribution(p, AtLeastMin);
    ViolationsStep(p, r2);
    ViolationsStep(p, r3);
    ViolationsStep(p, r4);
    ViolationsStep(p, r5);
    ViolationsStep(p, r6);
  }

  lemma ViolationsStep(p: string, rules: seq<Rule>)
    requires rules != []
    ensures Violations(p, rules) ==
      Violations(p, rules[..|rules| - 1]) +
      Contribution(p, rules[|rules| - 1])
  {
  }

  /** `password.any { it in k }`, scanning left to right. */
  method Any(password: string, k: CharClass) returns (found: bool)
    ensures found <==> HasAny(password, k)
  {
    found := false;
    var i := 0;
    while i < |password| && !found
      invariant 0 <= i <= |password|
      invariant found <==> i > 0 && InClass(password[i - 1], k)
      invariant forall j :: 0 <= j < i - 1 ==> !InClass(password[j], k)
      invariant !found ==> forall j :: 0 <= j < i ==> !InClass(password[j], k)
    {
      found := InClass(password[i], k);
      i := i + 1;
    }
  }

  /** validatePasswordStrength: the list of violated rules, built by conditional appends. */
  method ValidatePasswordStrength(password: string) returns (errors: seq<string>)
    ensures errors == PasswordErrors(password)
  {
    ghost var e0 := Contribution(password, AtLeastMin);
    ghost var e1 := Contribution(password, AtMostMax);
    errors := [];
    if |password| < MinLength { errors := errors + [TooShortMessage]; }
    assert errors == e0;
    if |password| > MaxLength { errors := errors + [TooLongMessage]; }
    assert errors == e0 + e1;
    var digit := Any(password, Digits);
    ghost var e2 := Contribution(password, HasDigit);
    if !digit { errors := errors + [NoDigitMessage]; }
    assert errors == (e0 + e1) + e2;
    var upper := Any(password, Uppers);
    ghost var e3 := Contribution(password, HasUpper);
    if !upper { errors := errors + [NoUpperMessage]; }
    assert errors == ((e0 + e1) + e2) + e3;
    var lower := Any(password, Lowers);
    ghost var e4 := Contribution(password, HasLower);
    if !lower { errors := errors + [NoLowerMessage]; }
    assert errors == (((e0 + e1) + e2) + e3) + e4;
    var special := Any(password, Specials);
    ghost var e5 := Contribution(password, HasSpecial);
    if !special { errors := errors + [NoSpecialMessage]; }
    assert errors == ((((e0 + e1) + e2) + e3) + e4) + e5;
    PasswordErrorsUnfold(password);
  }

  /** The list is empty exactly when the whole policy holds. */
  lemma {:induction false} NoErrorsIffStrong(p: string)
    ensures PasswordErrors(p) == [] <==> StrongPassword(p)
  {
    PasswordErrorsUnfold(p);
  }

  /** Each length message appears exactly when its bound is broken; both
      never appear together, so at most five messages are returned. */
  lemma {:induction false} LengthMessages(p: string)
    ensures TooShortMessage in PasswordErrors(p) <==> |p| < MinLength
    ensures TooLongMessage in PasswordErrors(p) <==> |p| > MaxLength
    ensures !(TooShortMessage in PasswordErrors(p) && TooLongMessage in PasswordErrors(p))
    ensures |PasswordErrors(p)| <= 5
  {
    PasswordErrorsUnfold(p);
    ClassMessagesAreNotLengthMessages(p);
    LengthMessagesDiffer();
    LengthContributions(p);
    var classes := Contribution(p, HasDigit) + Contribution(p, HasUpper) +
                   Contribution(p, HasLower) + Contribution(p, HasSpecial);
    TwoOptionalsThenRest(Contribution(p, AtLeastMin), Contribution(p, AtMostMax), classes,
                         |p| < MinLength, |p| > MaxLength, TooShortMessage, TooLongMessage);
  }

  lemma LengthContributions(p: string)
    ensures Contribution(p, AtLeastMin) == (if |p| < MinLength then [TooShortMessage] else [])
    ensures Contribution(p, AtMostMax) == (if |p| > MaxLength then [TooLongMessage] else [])
  {
  }

  /** Membership in `[x]?` + `[y]?` + rest, when neither x nor y is in rest. */
  lemma TwoOptionalsThenRest(c0: seq<string>, c1: seq<string>, rest: seq<string>,
                             a: bool, b: bool, x: string, y: string)
    requires c0 == (if a then [x] else []) && c1 == (if b then [y] else [])
    requires x != y && x !in rest && y !in rest && |rest| <= 4 && !(a && b)
    ensures x in c0 + c1 + rest <==> a
    ensures y in c0 + c1 + rest <==> b
    ensures !(x in c0 + c1 + rest && y in c0 + c1 + rest)
    ensures |c0 + c1 + rest| <= 5
  {
  }

  /** The two length messages differ from each other and from every class
      message already in their lengths. */
  lemma MessageLengths()
    ensures |TooShortMessage| == 43 && |TooLongMessage| == 46
    ensures |NoDigitMessage| == 41 && |NoUpperMessage| == 51
    ensures |NoLowerMessage| == 51 && |NoSpecialMessage| == 52
  {
  }

  lemma LengthMessagesDiffer()
    ensures TooShortMessage != TooLongMessage
  {
    MessageLengths();
  }

  /** The class rules never produce a length message. */
  lemma ClassMessagesAreNotLengthMessages(p: string)
    ensures var classes := Contribution(p, HasDigit) + Contribution(p, HasUpper) +
                           Contribution(p, HasLower) + Contribution(p, HasSpecial);
            TooShortMessage !in classes && TooLongMessage !in classes && |classes| <= 4
  {
    MessageLengths();
    var classes := Contribution(p, HasDigit) + Contribution(p, HasUpper) +
                   Contribution(p, HasLower) + Contribution(p, HasSpecial);
    assert forall m :: m in classes ==> |m| == 41 || |m| == 51 || |m| == 52;
  }

  /** The answer depends only on the length and on which characters occur:
      any rearrangement of a password gets the same list. */
  lemma {:induction false} PermutationInvariant(p: string, q: string)
    requires multiset(p) == multiset(q)
    ensures PasswordErrors(p) == PasswordErrors(q)
  {
    assert |p| == |multiset(p)| == |multiset(q)| == |q|;
    forall k: CharClass
      ensures HasAny(p, k) <==> HasAny(q, k)
    {
      SameClassesOccur(p, q, k);
      SameClassesOccur(q, p, k);
    }
    PasswordErrorsUnfold(p);
    PasswordErrorsUnfold(q);
  }

  lemma SameClassesOccur(p: string, q: string, k: CharClass)
    requires multiset(p) == multiset(q)
    ensures HasAny(p, k) ==> HasAny(q, k)
  {
    if HasAny(p, k) {
      var i :| 0 <= i < |p| && InClass(p[i], k);
      assert p[i] in multiset(q);
      var j :| 0 <= j < |q| && q[j] == p[i];
    }
  }

  /** Boundary lengths: 128 characters raise no length message, 7 the
      "too short" one and 129 the "too long" one. */
  lemma LengthBoundaries(p7: string, p128: string, p129: string)
    requires |p7| == 7 && |p128| == 128 && |p129| == 129
    ensures |PasswordErrors(p7)| > 0 && PasswordErrors(p7)[0] == TooShortMessage
    ensures TooShortMessage !in PasswordErrors(p128) && TooLongMessage !in PasswordErrors(p128)
    ensures |PasswordErrors(p129)| > 0 && PasswordErrors(p129)[0] == TooLongMessage
  {
    PasswordErrorsUnfold(p7);
    PasswordErrorsUnfold(p129);
    LengthMessages(p128);
  }

  /** No letter or digit is a special character. */
  lemma AlnumNotSpecial(c: char)
    requires IsLetter(c) || IsDigit(c)
    ensures !IsSpecial(c)
  {
    assert forall j :: 0 <= j < |SpecialCharacters| ==>
      !IsLetter(SpecialCharacters[j]) && !IsDigit(SpecialCharacters[j]);
  }

  /** A password made only of letters and digits always misses the special-character rule. */
  lemma {:induction false} AlnumHasNoSpecial(p: string)
    requires forall i :: 0 <= i < |p| ==> IsLetter(p[i]) || IsDigit(p[i])
    ensures !HasAny(p, Specials)
  {
    forall i | 0 <= i < |p| ensures !IsSpecial(p[i]) { AlnumNotSpecial(p[i]); }
  }

  /** '~' and the space are not special characters, so a password that
      relies on one of them is refused for lack of a special character. */
  lemma OutsideSpecialSet()
    ensures !IsSpecial('~') && !IsSpecial(' ')
    ensures PasswordErrors("Abcdefg1~") == [NoSpecialMessage]
  {
    var p := "Abcdefg1~";
    assert !IsSpecial('~') && !IsSpecial(' ');
    forall i | 0 <= i < 8 ensures !IsSpecial(p[i]) { AlnumNotSpecial(p[i]); }
    assert !HasAny(p, Specials);
    assert InClass(p[7], Digits) && InClass(p[0], Uppers) && InClass(p[1], Lowers);
    PasswordErrorsUnfold(p);
  }

  /** "Abcdef1!" meets the policy. */
  lemma StrongExample()
    ensures PasswordErrors("Abcdef1!") == []
  {
    var p := "Abcdef1!";
    assert InClass(p[6], Digits) && InClass(p[0], Uppers) && InClass(p[1], Lowers);
    assert InClass(p[7], Specials);
    PasswordErrorsUnfold(p);
  }

  /** "abcdefgh" lacks a digit, an uppercase letter and a special character. */
  lemma LowercaseOnlyExample()
    ensures PasswordErrors("abcdefgh") == [NoDigitMessage, NoUpperMessage, NoSpecialMessage]
  {
    var p := "abcdefgh";
    AlnumHasNoSpecial(p);
    assert InClass(p[0], Lowers);
    PasswordErrorsUnfold(p);
  }

  /** "short" breaks every rule but the lowercase one and the upper length bound. */
  lemma ShortExample()
    ensures PasswordErrors("short") == [TooShortMessage, NoDigitMessage, NoUpperMessage, NoSpecialMessage]
  {
    var p := "short";
    AlnumHasNoSpecial(p);
    assert InClass(p[0], Lowers);
    PasswordErrorsUnfold(p);
  }
}
