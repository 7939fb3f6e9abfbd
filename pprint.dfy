// unicode_print: a plain-text equation is dressed up by applying a fixed
// table of (pattern, replacement) pairs in order, each as a full
// str.replace. The table is kept in the source's order, in groups.
module PPrint {
  import opened PyOps

  type Pairs = seq<(string, string)>

  /** The asterisk, deleted first. */
  const Star: Pairs := [
    ("*", "")
  ]

  /** Braced Greek letter names, alpha to kappa. */
  const GreekA: Pairs := [
    ("{alpha}", "\U{03B1}"),
    ("{beta}", "\U{03B2}"),
    ("{gamma}", "\U{03B3}"),
    ("{delta}", "\U{03B4}"),
    ("{epsilon}", "\U{03B5}"),
    ("{zeta}", "\U{03B6}"),
    ("{eta}", "\U{03B7}"),
    ("{theta}", "\U{03B8}"),
    ("{iota}", "\U{03B9}"),
    ("{kappa}", "\U{03BA}")
  ]

  /** Braced Greek letter names, lambda to pi. */
  const GreekB: Pairs := [
    ("{lambda}", "\U{03BB}"),
    ("{mu}", "\U{03BC}"),
    ("{nu}", "\U{03BD}"),
    ("{xi}", "\U{03BE}"),
    ("{omicron}", "\U{03BF}"),
    ("{pi}", "\U{03C0}"),
    ("{ro}", "\U{03C1}")
  ]

  /** Braced Greek letter names, rho to omega. */
  const GreekC: Pairs := [
    ("{sigma}", "\U{03C3}"),
    ("{tau}", "\U{03C4}"),
    ("{upsilon}", "\U{03C5}"),
    ("{phi}", "\U{03C6}"),
    ("{chi}", "\U{03C7}"),
    ("{psi}", "\U{03C8}"),
    ("{omega}", "\U{03C9}")
  ]

  /** Division, degree, the two fractions and the integral sign, with the fractions' symbols as written. */
  const Symbols: Pairs := [
    ("{div}", "\U{00F7}"),
    ("{deg}", "\U{00B0}"),
    ("{1/2}", "\U{00BC}"),
    ("{1/4}", "\U{00BD}"),
    ("{int}", "\U{0283}")
  ]

  /** Subscript Greek letters. */
  const SubGreek: Pairs := [
    ("_{beta}", "\U{1D66}"),
    ("_{lambda}", "\U{1D67}"),
    ("_{ro}", "\U{1D68}"),
    ("_{theta}", "\U{1D69}"),
    ("_{chi}", "\U{1D6A}")
  ]

  /** Multiplication sign and middle dot. */
  const Operators: Pairs := [
    ("{x}", "\U{00D7}"),
    ("{.}", "\U{00B7}")
  ]

  /** Subscript digits. */
  const SubDigits: Pairs := [
    ("_0", "\U{2080}"),
    ("_1", "\U{2081}"),
    ("_2", "\U{2082}"),
    ("_3", "\U{2083}"),
    ("_4", "\U{2084}"),
    ("_5", "\U{2085}"),
    ("_6", "\U{2086}"),
    ("_7", "\U{2087}"),
    ("_8", "\U{2088}"),
    ("_9", "\U{2089}")
  ]

  /** Subscript signs and parentheses. */
  const SubSigns: Pairs := [
    ("_+", "\U{208A}"),
    ("_-", "\U{208B}"),
    ("_=", "\U{208C}"),
    ("_(", "\U{208D}"),
    ("_)", "\U{208E}")
  ]

  /** Subscript Latin letters. */
  const SubLetters: Pairs := [
    ("_a", "\U{2090}"),
    ("_e", "\U{2091}"),
    ("_o", "\U{2092}"),
    ("_x", "\U{2093}"),
    ("_i", "\U{1D62}"),
    ("_r", "\U{1D63}"),
    ("_u", "\U{1D64}"),
    ("_v", "\U{1D65}")
  ]

  /** Superscript Greek letters. */
  const SupGreek: Pairs := [
    ("^{theta}", "\U{1DBF}"),
    ("^{epsilon}", "\U{1D4B}"),
    ("^{upsilon}", "\U{02E1}"),
    ("^{eta}", "\U{1D51}"),
    ("^{nu}", "\U{1D5B}"),
    ("^{beta}", "\U{1D5D}"),
    ("^{delta}", "\U{1D5F}"),
    ("^{phi}", "\U{1D60}"),
    ("^{chi}", "\U{1D61}")
  ]

  /** Superscript digits and i. */
  const SupDigits: Pairs := [
    ("^0", "\U{2070}"),
    ("^1", "\U{00B9}"),
    ("^i", "\U{2071}"),
    ("^2", "\U{00B2}"),
    ("^3", "\U{00B3}"),
    ("^4", "\U{2074}"),
    ("^5", "\U{2075}"),
    ("^6", "\U{2076}"),
    ("^7", "\U{2077}"),
    ("^8", "\U{2078}"),
    ("^9", "\U{2079}")
  ]

  /** Superscript signs, parentheses and n. */
  const SupSigns: Pairs := [
    ("^+", "\U{207A}"),
    ("^-", "\U{207B}"),
    ("^=", "\U{207C}"),
    ("^(", "\U{207D}"),
    ("^)", "\U{207E}"),
    ("^n", "\U{207F}")
  ]

  /** Superscript lower-case letters, first half. */
  const SupLowerA: Pairs := [
    ("^a", "\U{00AA}"),
    ("^o", "\U{00BA}"),
    ("^b", "\U{1D47}"),
    ("^d", "\U{1D48}"),
    ("^e", "\U{1D49}"),
    ("^g", "\U{1D4D}"),
    ("^k", "\U{1D4F}"),
    ("^m", "\U{1D50}"),
    ("^p", "\U{1D56}")
  ]

  /** Superscript lower-case letters, second half. */
  const SupLowerB: Pairs := [
    ("^t", "\U{1D57}"),
    ("^u", "\U{1D58}"),
    ("^h", "\U{02B0}"),
    ("^j", "\U{02B0}"),
    ("^r", "\U{02B2}"),
    ("^w", "\U{02B3}"),
    ("^y", "\U{02E0}"),
    ("^s", "\U{02E2}"),
    ("^x", "\U{02E3}")
  ]

  /** Superscript capitals, first half. */
  const SupUpperA: Pairs := [
    ("^A", "\U{1D2C}"),
    ("^B", "\U{1D2E}"),
    ("^C", "\U{1D9C}"),
    ("^D", "\U{1D30}"),
    ("^E", "\U{1D31}"),
    ("^G", "\U{1D33}"),
    ("^H", "\U{1D34}"),
    ("^I", "\U{1D35}"),
    ("^J", "\U{1D36}"),
    ("^K", "\U{1D37}")
  ]

  /** Superscript capitals, second half. */
  const SupUpperB: Pairs := [
    ("^L", "\U{1D38}"),
    ("^M", "\U{1D39}"),
    ("^N", "\U{1D3A}"),
    ("^O", "\U{1D3C}"),
    ("^P", "\U{1D3E}"),
    ("^R", "\U{1D3F}"),
    ("^T", "\U{1D40}"),
    ("^U", "\U{1D41}"),
    ("^W", "\U{1D42}")
  ]

  /** The same five entries with the fractions' symbols the names call for. */
  const SymbolsIntended: Pairs := [
    ("{div}", "\U{00F7}"),
    ("{deg}", "\U{00B0}"),
    ("{1/2}", "\U{00BD}"),
    ("{1/4}", "\U{00BC}"),
    ("{int}", "\U{0283}")
  ]

  /** The braced Greek letter names. */
  const Greek: Pairs := GreekA + GreekB + GreekC

  /** The entries before the fractions' group. */
  const Head: Pairs := Star + Greek

  /** The entries after it. */
  const Tail: Pairs :=
    SubGreek + Operators + SubDigits + SubSigns + SubLetters + SupGreek + SupDigits
    + SupSigns + SupLowerA + SupLowerB + SupUpperA + SupUpperB

  /** charmap as written. */
  const CharMap: Pairs := Head + Symbols + Tail

  /** charmap with the fraction symbols matching their names. */
  const CharMapIntended: Pairs := Head + SymbolsIntended + Tail

  /** The replacements of a table applied to s in order, first entry first. */
  function Fold(t: Pairs, s: string): string
  {
    if t == [] then s else Fold(t[1..], Replace(s, t[0].0, t[0].1))
  }

  /** unicode_print: the loop over charmap, replacing each pattern in turn. */
  method UnicodePrint(s: string) returns (r: string)
    ensures r == Fold(CharMap, s)
  {
    r := s;
    for i := 0 to |CharMap|
      invariant Fold(CharMap, s) == Fold(CharMap[i..], r)
    {
      assert CharMap[i..][1..] == CharMap[i + 1..];
      r := Replace(r, CharMap[i].0, CharMap[i].1);
    }
    assert CharMap[|CharMap|..] == [];
  }

  // ---------------------------------------------------------------------------
  // Folding over a table
  // ---------------------------------------------------------------------------

  lemma {:induction false} FoldAppend(a: Pairs, b: Pairs, s: string)
    ensures Fold(a + b, s) == Fold(b, Fold(a, s))
  {
    if a != [] {
      var s1 := Replace(s, a[0].0, a[0].1);
      assert (a + b)[0] == a[0] && (a + b)[1..] == a[1..] + b;
      assert Fold(a + b, s) == Fold(a[1..] + b, s1);
      FoldAppend(a[1..], b, s1);
    } else {
      assert a + b == b;
    }
  }


  /** No pattern of t occurs in s: the whole table leaves s alone. */
  predicate Inert(t: Pairs, s: string)
  {
    forall i | 0 <= i < |t| :: |t[i].0| > 0 && !Contains(s, t[i].0)
  }

  lemma {:induction false} FoldInert(t: Pairs, s: string)
    requires Inert(t, s)
    ensures Fold(t, s) == s
  {
    if t != [] {
      ReplaceAbsent(s, t[0].0, t[0].1);
      assert Inert(t[1..], s) by {
        forall i | 0 <= i < |t[1..]|
          ensures |t[1..][i].0| > 0 && !Contains(s, t[1..][i].0)
        {
          assert t[1..][i] == t[i + 1];
        }
      }
      FoldInert(t[1..], s);
    }
  }

  /** No replacement of t contains c. */
  predicate NoneBrings(t: Pairs, c: char)
  {
    forall i | 0 <= i < |t| :: c !in t[i].1
  }

  lemma {:induction false} FoldKeepsOut(t: Pairs, s: string, c: char)
    requires c !in s && NoneBrings(t, c)
    ensures c !in Fold(t, s)
  {
    if t != [] {
      ReplaceKeepsOut(s, t[0].0, t[0].1, c);
      assert NoneBrings(t[1..], c) by {
        forall i | 0 <= i < |t[1..]|
          ensures c !in t[1..][i].1
        {
          assert t[1..][i] == t[i + 1];
        }
      }
      FoldKeepsOut(t[1..], Replace(s, t[0].0, t[0].1), c);
    }
  }

  /** A five-entry table is five replacements in a row. */
  lemma Fold5(t: Pairs, s: string)
    requires |t| == 5
    ensures Fold(t, s)
            == Replace(Replace(Replace(Replace(Replace(s, t[0].0, t[0].1), t[1].0, t[1].1), t[2].0, t[2].1), t[3].0, t[3].1), t[4].0, t[4].1)
  {
    var s1 := Replace(s, t[0].0, t[0].1);
    var s2 := Replace(s1, t[1].0, t[1].1);
    var s3 := Replace(s2, t[2].0, t[2].1);
    var s4 := Replace(s3, t[3].0, t[3].1);
    var s5 := Replace(s4, t[4].0, t[4].1);
    assert Fold(t[4..], s4) == s5 by {
      assert t[4..][0] == t[4] && t[4..][1..] == [];
    }
    assert Fold(t[3..], s3) == Fold(t[4..], s4) by {
      assert t[3..][0] == t[3] && t[3..][1..] == t[4..];
    }
    assert Fold(t[2..], s2) == Fold(t[3..], s3) by {
      assert t[2..][0] == t[2] && t[2..][1..] == t[3..];
    }
    assert Fold(t[1..], s1) == Fold(t[2..], s2) by {
      assert t[1..][0] == t[1] && t[1..][1..] == t[2..];
    }
  }

  // ---------------------------------------------------------------------------
  // When a pattern cannot occur
  // ---------------------------------------------------------------------------

  /** A pattern longer than s, or as long but different in its first two characters, does not occur in a short s. */
  lemma ShortSubject(s: string, pat: string)
    requires |s| <= 2 && |pat| >= 2
    requires |pat| > |s| || pat[0] != s[0] || pat[1] != s[1]
    ensures !Contains(s, pat)
  {
    forall i | 0 <= i <= |s|
      ensures !OccursAt(s, pat, i)
    {
      if i + |pat| <= |s| {
        assert i == 0 && |pat| == |s|;
        assert s[i..i + |pat|][0] == s[0] && s[i..i + |pat|][1] == s[1];
      }
    }
  }

  /** A pattern whose first character appears in s only at the start, and whose second differs from s's, does not occur. */
  lemma LeadOnlyAtStart(s: string, pat: string)
    requires |s| >= 2 && |pat| >= 2 && pat[0] !in s[1..] && pat[1] != s[1]
    ensures !Contains(s, pat)
  {
    forall i | 0 <= i <= |s|
      ensures !OccursAt(s, pat, i)
    {
      if i + |pat| <= |s| {
        if i == 0 {
          assert s[i..i + |pat|][1] == s[1];
        } else {
          assert s[i..i + |pat|][0] == s[i] == s[1..][i - 1];
        }
      }
    }
  }

  // ---------------------------------------------------------------------------
  // The shape of charmap's entries
  // ---------------------------------------------------------------------------

  /** The characters a pattern of charmap starts with. */
  predicate IsLead(c: char)
  {
    c == '*' || c == '{' || c == '_' || c == '^'
  }

  /** Every pattern of t is non-empty and starts with a lead character. */
  predicate AllLed(t: Pairs)
  {
    forall i | 0 <= i < |t| :: |t[i].0| > 0 && IsLead(t[i].0[0])
  }

  /** Every pattern of t is a brace and then a character other than c; no replacement holds an asterisk. */
  predicate AllBraced(t: Pairs, c: char)
  {
    forall i | 0 <= i < |t| :: |t[i].0| >= 2 && t[i].0[0] == '{' && t[i].0[1] != c && '*' !in t[i].1
  }

  /**
   * Every pattern of t is at least two long, starts with a lead character and,
   * when exactly two long, ends in an ASCII character; no replacement holds an asterisk.
   */
  predicate AllMarked(t: Pairs)
  {
    forall i | 0 <= i < |t| ::
      |t[i].0| >= 2 && IsLead(t[i].0[0]) && (|t[i].0| == 2 ==> t[i].0[1] < '\U{0080}') && '*' !in t[i].1
  }

  lemma LedAppend(a: Pairs, b: Pairs)
    requires AllLed(a) && AllLed(b)
    ensures AllLed(a + b)
  {
    forall i | |a| <= i < |a + b|
      ensures |(a + b)[i].0| > 0 && IsLead((a + b)[i].0[0])
    {
      assert (a + b)[i] == b[i - |a|];
    }
  }

  lemma NoneBringsAppend(a: Pairs, b: Pairs, c: char)
    requires NoneBrings(a, c) && NoneBrings(b, c)
    ensures NoneBrings(a + b, c)
  {
    forall i | |a| <= i < |a + b|
      ensures c !in (a + b)[i].1
    {
      assert (a + b)[i] == b[i - |a|];
    }
  }

  lemma BracedAppend(a: Pairs, b: Pairs, c: char)
    requires AllBraced(a, c) && AllBraced(b, c)
    ensures AllBraced(a + b, c)
  {
    forall i | |a| <= i < |a + b|
      ensures |(a + b)[i].0| >= 2 && (a + b)[i].0[0] == '{' && (a + b)[i].0[1] != c && '*' !in (a + b)[i].1
    {
      assert (a + b)[i] == b[i - |a|];
    }
  }

  lemma MarkedAppend(a: Pairs, b: Pairs)
    requires AllMarked(a) && AllMarked(b)
    ensures AllMarked(a + b)
  {
    forall i | |a| <= i < |a + b|
      ensures var p := (a + b)[i].0;
              |p| >= 2 && IsLead(p[0]) && (|p| == 2 ==> p[1] < '\U{0080}') && '*' !in (a + b)[i].1
    {
      assert (a + b)[i] == b[i - |a|];
    }
  }

  lemma BracedIsLed(t: Pairs, c: char)
    requires AllBraced(t, c)
    ensures AllLed(t) && NoneBrings(t, '*')
  {
  }

  lemma MarkedIsLed(t: Pairs)
    requires AllMarked(t)
    ensures AllLed(t) && NoneBrings(t, '*')
  {
  }

  /** The braced names: none has '1' as its second character. */
  lemma GreekShape()
    ensures AllBraced(Greek, '1')
  {
    assert AllBraced(GreekA, '1');
    assert AllBraced(GreekB, '1');
    assert AllBraced(GreekC, '1');
    BracedAppend(GreekA, GreekB, '1');
    BracedAppend(GreekA + GreekB, GreekC, '1');
  }

  lemma SubscriptsMarked()
    ensures AllMarked(SubGreek) && AllMarked(Operators) && AllMarked(SubDigits)
    ensures AllMarked(SubSigns) && AllMarked(SubLetters)
  {
  }

  lemma SuperscriptsMarked()
    ensures AllMarked(SupGreek) && AllMarked(SupDigits) && AllMarked(SupSigns)
  {
  }

  lemma SuperscriptLettersMarked()
    ensures AllMarked(SupLowerA) && AllMarked(SupLowerB) && AllMarked(SupUpperA) && AllMarked(SupUpperB)
  {
  }

  /** The tail's patterns are all marked. */
  lemma TailShape()
    ensures AllMarked(Tail)
  {
    SubscriptsMarked();
    SuperscriptsMarked();
    SuperscriptLettersMarked();
    var t := SubGreek;
    MarkedAppend(t, Operators); t := t + Operators;
    MarkedAppend(t, SubDigits); t := t + SubDigits;
    MarkedAppend(t, SubSigns); t := t + SubSigns;
    MarkedAppend(t, SubLetters); t := t + SubLetters;
    MarkedAppend(t, SupGreek); t := t + SupGreek;
    MarkedAppend(t, SupDigits); t := t + SupDigits;
    MarkedAppend(t, SupSigns); t := t + SupSigns;
    MarkedAppend(t, SupLowerA); t := t + SupLowerA;
    MarkedAppend(t, SupLowerB); t := t + SupLowerB;
    MarkedAppend(t, SupUpperA); t := t + SupUpperA;
    MarkedAppend(t, SupUpperB); t := t + SupUpperB;
  }

  // ---------------------------------------------------------------------------
  // Tables that leave a string alone
  // ---------------------------------------------------------------------------

  /** A table whose patterns all start with a lead character leaves text without lead characters alone. */
  lemma LedInertOnPlain(t: Pairs, s: string)
    requires AllLed(t) && '*' !in s && '{' !in s && '_' !in s && '^' !in s
    ensures Fold(t, s) == s
  {
    forall i | 0 <= i < |t|
      ensures |t[i].0| > 0 && !Contains(s, t[i].0)
    {
      FirstCharAbsent(s, t[i].0);
    }
    FoldInert(t, s);
  }

  /** A marked table leaves alone a single character, or two whose second is not ASCII. */
  lemma MarkedInertOnShort(t: Pairs, s: string)
    requires AllMarked(t) && (|s| == 1 || (|s| == 2 && s[1] >= '\U{0080}'))
    ensures Fold(t, s) == s
  {
    forall i | 0 <= i < |t|
      ensures |t[i].0| > 0 && !Contains(s, t[i].0)
    {
      ShortSubject(s, t[i].0);
    }
    FoldInert(t, s);
  }

  /** A braced table leaves alone text without a brace. */
  lemma BracedInertWithoutBrace(t: Pairs, c: char, s: string)
    requires AllBraced(t, c) && '{' !in s
    ensures Fold(t, s) == s
  {
    forall i | 0 <= i < |t|
      ensures |t[i].0| > 0 && !Contains(s, t[i].0)
    {
      FirstCharAbsent(s, t[i].0);
    }
    FoldInert(t, s);
  }

  /** A braced table whose second characters differ from s's leaves alone an s with one brace, at its start. */
  lemma BracedInertOnBraced(t: Pairs, s: string)
    requires |s| >= 2 && '{' !in s[1..] && AllBraced(t, s[1])
    ensures Fold(t, s) == s
  {
    forall i | 0 <= i < |t|
      ensures |t[i].0| > 0 && !Contains(s, t[i].0)
    {
      LeadOnlyAtStart(s, t[i].0);
    }
    FoldInert(t, s);
  }

  /** Two different strings of the same length do not occur in each other. */
  lemma SameLengthDiffer(s: string, pat: string)
    requires |s| == |pat| && s != pat
    ensures !Contains(s, pat)
  {
    forall i | 0 <= i <= |s|
      ensures !OccursAt(s, pat, i)
    {
      if i + |pat| <= |s| {
        assert i == 0 && s[i..i + |pat|] == s;
      }
    }
  }

  /** After the asterisk entry, no replacement of charmap holds an asterisk, and every pattern starts with a lead character. */
  lemma CharMapShape()
    ensures CharMap == Star + (Greek + Symbols + Tail)
    ensures NoneBrings(Greek + Symbols + Tail, '*')
    ensures AllLed(CharMap)
  {
    GreekShape();
    TailShape();
    assert AllBraced(Symbols, '{');
    BracedIsLed(Greek, '1');
    BracedIsLed(Symbols, '{');
    MarkedIsLed(Tail);
    NoneBringsAppend(Greek, Symbols, '*');
    NoneBringsAppend(Greek + Symbols, Tail, '*');
    assert AllLed(Star);
    LedAppend(Star, Greek);
    LedAppend(Star + Greek, Symbols);
    LedAppend(Star + Greek + Symbols, Tail);
  }

  // ---------------------------------------------------------------------------
  // Properties of unicode_print
  // ---------------------------------------------------------------------------

  /** The output never contains an asterisk: it is deleted first and no replacement brings it back. */
  lemma NoAsteriskInOutput(s: string)
    ensures '*' !in Fold(CharMap, s)
  {
    CharMapShape();
    var rest := Greek + Symbols + Tail;
    FoldAppend(Star, rest, s);
    assert Star[1..] == [];
    assert Fold(Star, s) == Replace(s, "*", "");
    ReplaceRemoves(s, '*', "");
    FoldKeepsOut(rest, Replace(s, "*", ""), '*');
  }

  /** Text without an asterisk, brace, underscore or caret comes back unchanged. */
  lemma PlainTextUnchanged(s: string)
    requires '*' !in s && '{' !in s && '_' !in s && '^' !in s
    ensures Fold(CharMap, s) == s
  {
    CharMapShape();
    LedInertOnPlain(CharMap, s);
  }

  /** The tail leaves alone a single character, or two whose second is not ASCII. */
  lemma TailInertOnShort(s: string)
    requires |s| == 1 || (|s| == 2 && s[1] >= '\U{0080}')
    ensures Fold(Tail, s) == s
  {
    TailShape();
    MarkedInertOnShort(Tail, s);
  }

  /** A braced fraction passes the entries before the fractions' group unchanged. */
  lemma HeadInertOnFraction(s: string)
    requires s == "{1/2}" || s == "{1/4}"
    ensures Fold(Head, s) == s
  {
    GreekShape();
    assert '{' !in s[1..] && s[1] == '1';
    BracedInertOnBraced(Greek, s);
    FirstCharAbsent(s, "*");
    ReplaceAbsent(s, "*", "");
    assert Star[1..] == [];
    FoldAppend(Star, Greek, s);
  }

  /** The fractions' group maps {1/2} and {1/4} through its middle two entries. */
  lemma SymbolsOnFraction(symbols: Pairs, s: string)
    requires |symbols| == 5 && symbols[..2] == Symbols[..2] && symbols[4] == Symbols[4]
    requires symbols[2].0 == "{1/2}" && symbols[3].0 == "{1/4}" && |symbols[2].1| == 1 && |symbols[3].1| == 1
    requires s == "{1/2}" || s == "{1/4}"
    ensures s == "{1/2}" ==> Fold(symbols, s) == symbols[2].1
    ensures s == "{1/4}" ==> Fold(symbols, s) == symbols[3].1
  {
    assert symbols[0] == symbols[..2][0] == ("{div}", "\U{00F7}");
    assert symbols[1] == symbols[..2][1] == ("{deg}", "\U{00B0}");
    assert symbols[4] == ("{int}", "\U{0283}");
    Fold5(symbols, s);
    assert '{' !in s[1..] && s[1] == '1';
    LeadOnlyAtStart(s, "{div}");
    LeadOnlyAtStart(s, "{deg}");
    ReplaceAbsent(s, "{div}", "\U{00F7}");
    ReplaceAbsent(s, "{deg}", "\U{00B0}");
    var x := symbols[2].1;
    var y := symbols[3].1;
    ShortSubject(x, "{1/4}");
    ShortSubject(x, "{int}");
    ShortSubject(y, "{int}");
    ReplaceAbsent(x, "{1/4}", y);
    ReplaceAbsent(x, "{int}", "\U{0283}");
    ReplaceAbsent(y, "{int}", "\U{0283}");
    if s == "{1/2}" {
      assert s[..5] == "{1/2}" && s[5..] == [];
      assert Replace(s, "{1/2}", x) == x;
    } else {
      assert s[..5] == "{1/4}" && s[5..] == [];
      SameLengthDiffer(s, "{1/2}");
      ReplaceAbsent(s, "{1/2}", x);
      assert Replace(s, "{1/4}", y) == y;
    }
  }

  /** What a table built from Head, a fractions' group and Tail makes of a braced fraction. */
  lemma FractionThroughTable(symbols: Pairs, s: string)
    requires |symbols| == 5 && symbols[..2] == Symbols[..2] && symbols[4] == Symbols[4]
    requires symbols[2].0 == "{1/2}" && symbols[3].0 == "{1/4}" && |symbols[2].1| == 1 && |symbols[3].1| == 1
    requires s == "{1/2}" || s == "{1/4}"
    ensures Fold(Head + symbols + Tail, s) == Fold(symbols, s)
  {
    FoldAppend(Head + symbols, Tail, s);
    FoldAppend(Head, symbols, s);
    HeadInertOnFraction(s);
    SymbolsOnFraction(symbols, s);
    TailInertOnShort(Fold(symbols, s));
  }

  /** As written, {1/2} prints as the quarter sign and {1/4} as the half sign. */
  lemma FractionsSwapped()
    ensures Fold(CharMap, "{1/2}") == "\U{00BC}"
    ensures Fold(CharMap, "{1/4}") == "\U{00BD}"
  {
    FractionThroughTable(Symbols, "{1/2}");
    FractionThroughTable(Symbols, "{1/4}");
    SymbolsOnFraction(Symbols, "{1/2}");
    SymbolsOnFraction(Symbols, "{1/4}");
  }

  /** With the symbols matched to their names, {1/2} prints as the half sign and {1/4} as the quarter sign. */
  lemma FractionsIntended()
    ensures Fold(CharMapIntended, "{1/2}") == "\U{00BD}"
    ensures Fold(CharMapIntended, "{1/4}") == "\U{00BC}"
  {
    assert SymbolsIntended[..2] == Symbols[..2];
    FractionThroughTable(SymbolsIntended, "{1/2}");
    FractionThroughTable(SymbolsIntended, "{1/4}");
    SymbolsOnFraction(SymbolsIntended, "{1/2}");
    SymbolsOnFraction(SymbolsIntended, "{1/4}");
  }

  /** The Greek group opens with alpha and beta. */
  lemma GreekStart()
    ensures Greek[..2] == [("{alpha}", "\U{03B1}"), ("{beta}", "\U{03B2}")]
  {
    assert Greek[..2] == GreekA[..2];
  }

  /** The braced beta after an underscore becomes a plain beta. */
  lemma ReplaceBeta()
    ensures Replace("_{beta}", "{beta}", "\U{03B2}") == "_\U{03B2}"
  {
    var s := "_{beta}";
    assert s[..6][0] == '_';
    assert s[1..] == "{beta}";
    assert Replace(s[1..], "{beta}", "\U{03B2}") == "\U{03B2}" by {
      assert s[1..][6..] == [];
    }
  }

  /** Before the fractions' group, "_{beta}" has become an underscore and a plain beta. */
  lemma BetaThroughHead()
    ensures Fold(Head, "_{beta}") == "_\U{03B2}"
  {
    var s := "_{beta}";
    var r := "_\U{03B2}";
    GreekShape();
    FirstCharAbsent(s, "*");
    ReplaceAbsent(s, "*", "");
    assert Star[1..] == [];
    FoldAppend(Star, Greek, s);
    var two := Greek[..2];
    GreekStart();
    assert Replace(s, "{alpha}", "\U{03B1}") == s;
    ReplaceBeta();
    assert Fold(two, s) == r by {
      assert two[1..][0] == two[1] && two[1..][1..] == [];
      assert Fold(two[1..], s) == Fold([], r);
      assert Fold(two, s) == Fold(two[1..], s);
    }
    assert AllBraced(Greek[2..], '1') by {
      forall i | 0 <= i < |Greek[2..]|
        ensures Greek[2..][i] == Greek[i + 2]
      {
      }
    }
    BracedInertWithoutBrace(Greek[2..], '1', r);
    assert Greek == two + Greek[2..];
    FoldAppend(two, Greek[2..], s);
  }

  /**
   * The subscript beta entry never fires on "_{beta}": the braced name is
   * replaced earlier, leaving an underscore and a plain beta.
   */
  lemma SubscriptBetaStaysGreek()
    ensures Fold(CharMap, "_{beta}") == "_\U{03B2}"
  {
    var r := "_\U{03B2}";
    BetaThroughHead();
    assert AllBraced(Symbols, '{');
    BracedInertWithoutBrace(Symbols, '{', r);
    TailInertOnShort(r);
    FoldAppend(Head, Symbols, "_{beta}");
    FoldAppend(Head + Symbols, Tail, "_{beta}");
  }

  /** A pattern that does not start with c never matches at a leading c. */
  lemma ReplaceAfterLead(c: char, x: string, pat: string, rep: string)
    requires |pat| > 0 && pat[0] != c
    ensures Replace([c] + x, pat, rep) == [c] + Replace(x, pat, rep)
  {
    var s := [c] + x;
    assert s[1..] == x;
    if |s| >= |pat| {
      assert s[..|pat|][0] == c;
    }
  }

  /** A table none of whose patterns starts with c works past a leading c. */
  lemma {:induction false} FoldAfterLead(t: Pairs, c: char, x: string)
    requires forall i | 0 <= i < |t| :: |t[i].0| > 0 && t[i].0[0] != c
    ensures Fold(t, [c] + x) == [c] + Fold(t, x)
    decreases |t|
  {
    if t != [] {
      ReplaceAfterLead(c, x, t[0].0, t[0].1);
      FoldAfterLead(t[1..], c, Replace(x, t[0].0, t[0].1));
    }
  }

  /** The braced names turn "{theta}" into a plain theta: only its own entry matches. */
  lemma GreekOnTheta()
    ensures Fold(Greek, "{theta}") == "\U{03B8}"
  {
    var s := "{theta}";
    var th := "\U{03B8}";
    var pre := GreekA[..7];
    var entry := [GreekA[7]];
    var rest := GreekA[8..] + GreekB + GreekC;
    assert AllBraced(pre, 't');
    assert '{' !in s[1..];
    BracedInertOnBraced(pre, s);
    assert Replace(s, "{theta}", th) == th by {
      assert s[..7] == s && s[7..] == [];
    }
    assert Fold(entry, s) == th by {
      assert entry[0] == ("{theta}", th) && entry[1..] == [];
    }
    assert AllBraced(GreekA[8..], '1');
    assert AllBraced(GreekB, '1');
    assert AllBraced(GreekC, '1');
    BracedAppend(GreekA[8..], GreekB, '1');
    BracedAppend(GreekA[8..] + GreekB, GreekC, '1');
    BracedInertWithoutBrace(rest, '1', th);
    assert GreekA == pre + entry + GreekA[8..];
    assert Greek == pre + (entry + rest);
    FoldAppend(pre, entry + rest, s);
    FoldAppend(entry, rest, s);
  }

  /** Before the fractions' group, a marker and "{theta}" have become the marker and a plain theta. */
  lemma ThetaThroughHead(c: char)
    requires c == '_' || c == '^'
    ensures Fold(Head, [c] + "{theta}") == [c] + "\U{03B8}"
  {
    GreekShape();
    forall i | 0 <= i < |Head|
      ensures |Head[i].0| > 0 && Head[i].0[0] != c
    {
      if i > 0 {
        assert Head[i] == Greek[i - 1];
      }
    }
    FoldAfterLead(Head, c, "{theta}");
    assert Star[1..] == [];
    FirstCharAbsent("{theta}", "*");
    ReplaceAbsent("{theta}", "*", "");
    FoldAppend(Star, Greek, "{theta}");
    GreekOnTheta();
  }

  /** A subscript or superscript theta: the braced name is replaced in the Greek group, leaving the marker and a plain theta. */
  lemma MarkedThetaStaysGreek(c: char)
    requires c == '_' || c == '^'
    ensures Fold(CharMap, [c] + "{theta}") == [c] + "\U{03B8}"
  {
    var r := [c] + "\U{03B8}";
    ThetaThroughHead(c);
    assert AllBraced(Symbols, '{');
    BracedInertWithoutBrace(Symbols, '{', r);
    TailInertOnShort(r);
    FoldAppend(Head, Symbols, [c] + "{theta}");
    FoldAppend(Head + Symbols, Tail, [c] + "{theta}");
  }

  /** The subscript theta entry never fires on "_{theta}": it prints as an underscore and a plain theta. */
  lemma SubscriptThetaStaysGreek()
    ensures Fold(CharMap, "_{theta}") == "_\U{03B8}"
  {
    assert "_{theta}" == ['_'] + "{theta}";
    MarkedThetaStaysGreek('_');
  }

  /** Likewise the superscript theta entry never fires on "^{theta}". */
  lemma SuperscriptThetaStaysGreek()
    ensures Fold(CharMap, "^{theta}") == "^\U{03B8}"
  {
    assert "^{theta}" == ['^'] + "{theta}";
    MarkedThetaStaysGreek('^');
  }
}
