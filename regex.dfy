/** A reference reading of the validator's six regular-expression literals.

    Each literal is anchored (`^…$`, no `m` flag, so `$` matches only at the
    very end of the input) and is a sequence of character classes, each with a
    repetition bound: `[A-Z]{5}`, `\d{10,18}`, `[a-zA-Z\s]+`, a literal `0`.
    `Matches` gives that fragment its meaning, with no commitment to how a
    matcher searches; the lemmas prove that each hand-written predicate of
    module Formats accepts exactly the strings its literal matches. */
module Regex {
  import opened Formats

  /** One member of a bracket class: a range `a-z`, or the escape `\s`. */
  datatype ClassItem = Span(lo: char, hi: char) | Space

  datatype Bound = AtMost(n: nat) | Unbounded

  /** A character class repeated between `min` and `max` times. */
  datatype Term = Term(items: seq<ClassItem>, min: nat, max: Bound)

  predicate InItem(c: char, item: ClassItem) {
    match item
    case Span(lo, hi) => lo <= c <= hi
    case Space => IsJsSpace(c)
  }

  predicate InClass(c: char, items: seq<ClassItem>) {
    exists j :: 0 <= j < |items| && InItem(c, items[j])
  }

  predicate AllIn(s: string, items: seq<ClassItem>) {
    forall i :: 0 <= i < |s| ==> InClass(s[i], items)
  }

  predicate Fits(t: Term, k: nat) {
    t.min <= k && (t.max.AtMost? ==> k <= t.max.n)
  }

  /** The whole of `s` splits into consecutive pieces, one per term, each
      piece of an allowed length and drawn from its term's class. */
  predicate Matches(p: seq<Term>, s: string)
    decreases |p|
  {
    if p == [] then s == []
    else exists k :: 0 <= k <= |s| && Fits(p[0], k) && AllIn(s[..k], p[0].items) && Matches(p[1..], s[k..])
  }

  /** A term of fixed width `{n}`. */
  function Exactly(items: seq<ClassItem>, n: nat): Term {
    Term(items, n, AtMost(n))
  }

  const Digit: seq<ClassItem> := [Span('0', '9')]
  const Upper: seq<ClassItem> := [Span('A', 'Z')]

  /** `^[a-zA-Z\s]+$` */
  const ContactNamePattern: seq<Term> := [Term([Span('a', 'z'), Span('A', 'Z'), Space], 1, Unbounded)]
  /** `^\d{10}$` */
  const MobilePattern: seq<Term> := [Exactly(Digit, 10)]
  /** `^\d{6}$` */
  const PincodePattern: seq<Term> := [Exactly(Digit, 6)]
  /** `^[A-Z]{5}[0-9]{4}[A-Z]{1}$` */
  const PanPattern: seq<Term> := [Exactly(Upper, 5), Exactly(Digit, 4), Exactly(Upper, 1)]
  /** `^[A-Z]{4}0[A-Z0-9]{6}$` */
  const IfscPattern: seq<Term> := [Exactly(Upper, 4), Exactly([Span('0', '0')], 1), Exactly([Span('A', 'Z'), Span('0', '9')], 6)]
  /** `^\d{10,18}$` */
  const AccountNumberPattern: seq<Term> := [Term(Digit, 10, AtMost(18))]

  function PatternOf(format: Format): seq<Term> {
    match format
    case NameFormat => ContactNamePattern
    case MobileFormat => MobilePattern
    case PincodeFormat => PincodePattern
    case PanFormat => PanPattern
    case IfscFormat => IfscPattern
    case AccountNumberFormat => AccountNumberPattern
  }

  // ---------------------------------------------------------------------------
  // Splitting a match at its first term

  /** The last term must take all that is left. */
  lemma {:induction false} MatchesLast(t: Term, s: string)
    ensures Matches([t], s) <==> Fits(t, |s|) && AllIn(s, t.items)
  {
    var p := [t];
    assert p[0] == t && p[1..] == [];
    if Matches(p, s) {
      var k :| 0 <= k <= |s| && Fits(t, k) && AllIn(s[..k], t.items) && Matches(p[1..], s[k..]);
      assert s[k..] == [];
      assert k == |s| && s[..k] == s;
    }
    if Fits(t, |s|) && AllIn(s, t.items) {
      assert s[..|s|] == s && s[|s|..] == [];
      assert Matches(p[1..], s[|s|..]);
    }
  }

  /** A term of fixed width `n` takes exactly the first `n` characters. */
  lemma {:induction false} MatchesFixedFirst(t: Term, rest: seq<Term>, s: string)
    requires t.max == AtMost(t.min)
    ensures Matches([t] + rest, s) <==> t.min <= |s| && AllIn(s[..t.min], t.items) && Matches(rest, s[t.min..])
  {
    var p := [t] + rest;
    assert p[0] == t && p[1..] == rest;
    if Matches(p, s) {
      var k :| 0 <= k <= |s| && Fits(t, k) && AllIn(s[..k], t.items) && Matches(p[1..], s[k..]);
      assert k == t.min;
    }
    if t.min <= |s| && AllIn(s[..t.min], t.items) && Matches(rest, s[t.min..]) {
      assert Fits(p[0], t.min);
    }
  }

  // ---------------------------------------------------------------------------
  // The classes used by the literals

  lemma DigitClass(c: char)
    ensures InClass(c, Digit) <==> IsAsciiDigit(c)
  {
    if IsAsciiDigit(c) { assert InItem(c, Digit[0]); }
  }

  lemma UpperClass(c: char)
    ensures InClass(c, Upper) <==> IsAsciiUpper(c)
  {
    if IsAsciiUpper(c) { assert InItem(c, Upper[0]); }
  }

  lemma NameClass(c: char)
    ensures InClass(c, ContactNamePattern[0].items) <==> IsAsciiLower(c) || IsAsciiUpper(c) || IsJsSpace(c)
  {
    var items := ContactNamePattern[0].items;
    if IsAsciiLower(c) { assert InItem(c, items[0]); }
    if IsAsciiUpper(c) { assert InItem(c, items[1]); }
    if IsJsSpace(c) { assert InItem(c, items[2]); }
  }

  lemma ZeroClass(c: char)
    ensures InClass(c, IfscPattern[1].items) <==> c == '0'
  {
    if c == '0' { assert InItem(c, IfscPattern[1].items[0]); }
  }

  lemma UpperOrDigitClass(c: char)
    ensures InClass(c, IfscPattern[2].items) <==> IsAsciiUpper(c) || IsAsciiDigit(c)
  {
    var items := IfscPattern[2].items;
    if IsAsciiUpper(c) { assert InItem(c, items[0]); }
    if IsAsciiDigit(c) { assert InItem(c, items[1]); }
  }

  lemma AllDigitClass(s: string)
    ensures AllIn(s, Digit) <==> AllDigits(s)
  {
    forall i | 0 <= i < |s| { DigitClass(s[i]); }
  }

  lemma AllUpperClass(s: string)
    ensures AllIn(s, Upper) <==> forall i :: 0 <= i < |s| ==> IsAsciiUpper(s[i])
  {
    forall i | 0 <= i < |s| { UpperClass(s[i]); }
  }

  // ---------------------------------------------------------------------------
  // Each hand-written predicate is its literal

  lemma {:induction false} ContactNameIsPattern(s: string)
    ensures IsContactName(s) <==> Matches(ContactNamePattern, s)
  {
    var t := ContactNamePattern[0];
    MatchesLast(t, s);
    forall i | 0 <= i < |s| { NameClass(s[i]); }
  }

  lemma {:induction false} MobileIsPattern(s: string)
    ensures IsMobile(s) <==> Matches(MobilePattern, s)
  {
    MatchesLast(MobilePattern[0], s);
    AllDigitClass(s);
  }

  lemma {:induction false} PincodeIsPattern(s: string)
    ensures IsPincode(s) <==> Matches(PincodePattern, s)
  {
    MatchesLast(PincodePattern[0], s);
    AllDigitClass(s);
  }

  lemma {:induction false} AccountNumberIsPattern(s: string)
    ensures IsAccountNumber(s) <==> Matches(AccountNumberPattern, s)
  {
    MatchesLast(AccountNumberPattern[0], s);
    AllDigitClass(s);
  }

  lemma {:induction false} PanIsPattern(s: string)
    ensures IsPan(s) <==> Matches(PanPattern, s)
  {
    var a, b, c := PanPattern[0], PanPattern[1], PanPattern[2];
    assert PanPattern == [a] + [b, c] && [b, c] == [b] + [c];
    MatchesFixedFirst(a, [b, c], s);
    if |s| >= 5 {
      var s1 := s[5..];
      MatchesFixedFirst(b, [c], s1);
      if |s1| >= 4 {
        var s2 := s1[4..];
        MatchesLast(c, s2);
        AllUpperClass(s[..5]);
        AllDigitClass(s1[..4]);
        AllUpperClass(s2);
        assert forall i :: 5 <= i < 9 && i < |s| ==> s[i] == s1[..4][i - 5];
        if |s| == 10 {
          assert s2 == [s[9]];
        }
      }
    }
  }

  lemma {:induction false} IfscIsPattern(s: string)
    ensures IsIfsc(s) <==> Matches(IfscPattern, s)
  {
    var a, b, c := IfscPattern[0], IfscPattern[1], IfscPattern[2];
    assert IfscPattern == [a] + [b, c] && [b, c] == [b] + [c];
    MatchesFixedFirst(a, [b, c], s);
    if |s| >= 4 {
      var s1 := s[4..];
      MatchesFixedFirst(b, [c], s1);
      if |s1| >= 1 {
        var s2 := s1[1..];
        MatchesLast(c, s2);
        AllUpperClass(s[..4]);
        ZeroClass(s1[0]);
        assert AllIn(s1[..1], b.items) <==> InClass(s1[0], b.items);
        forall i | 0 <= i < |s2| { UpperOrDigitClass(s2[i]); }
        assert forall i :: 5 <= i < |s| ==> s[i] == s2[i - 5];
      }
    }
  }

  /** Every format the validator applies accepts exactly the strings its
      regular-expression literal matches. */
  lemma AcceptsIsPatternMatch(format: Format, s: string)
    ensures Accepts(format, s) <==> Matches(PatternOf(format), s)
  {
    match format
    case NameFormat => ContactNameIsPattern(s);
    case MobileFormat => MobileIsPattern(s);
    case PincodeFormat => PincodeIsPattern(s);
    case PanFormat => PanIsPattern(s);
    case IfscFormat => IfscIsPattern(s);
    case AccountNumberFormat => AccountNumberIsPattern(s);
  }
}
