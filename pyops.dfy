// The few Python built-ins whose exact semantics the modelled code depends on:
// str.replace, str.split with an explicit separator, int() on a float and the
// float % operator.
module PyOps {

  /** `pat` occurs in `s` starting at index `i`. */
  predicate OccursAt(s: seq<char>, pat: seq<char>, i: int)
  {
    0 <= i && i + |pat| <= |s| && s[i..i + |pat|] == pat
  }

  predicate Contains(s: seq<char>, pat: seq<char>)
  {
    exists i | 0 <= i <= |s| :: OccursAt(s, pat, i)
  }

  /** s.replace("", rep) in Python: rep before every character and once more at the end. */
  function InsertEverywhere(s: seq<char>, rep: seq<char>): (r: seq<char>)
    ensures |r| == |s| + (|s| + 1) * |rep|
  {
    if s == [] then rep else rep + [s[0]] + InsertEverywhere(s[1..], rep)
  }

  /**
   * Python's s.replace(pat, rep): every non-overlapping occurrence of `pat`,
   * scanning left to right, is replaced by `rep`; an empty `pat` inserts `rep`
   * at every position.
   */
  function Replace(s: seq<char>, pat: seq<char>, rep: seq<char>): seq<char>
    decreases |s|
  {
    if |pat| == 0 then InsertEverywhere(s, rep)
    else if |s| < |pat| then s
    else if s[..|pat|] == pat then rep + Replace(s[|pat|..], pat, rep)
    else [s[0]] + Replace(s[1..], pat, rep)
  }

  lemma {:induction false} InsertEverywhereKeepsOut(s: seq<char>, rep: seq<char>, c: char)
    requires c !in s && c !in rep
    ensures c !in InsertEverywhere(s, rep)
  {
    if s != [] {
      InsertEverywhereKeepsOut(s[1..], rep, c);
    }
  }

  /** A character found neither in the subject nor in the replacement is not in the result. */
  lemma {:induction false} ReplaceKeepsOut(s: seq<char>, pat: seq<char>, rep: seq<char>, c: char)
    requires c !in s && c !in rep
    ensures c !in Replace(s, pat, rep)
    decreases |s|
  {
    if |pat| == 0 {
      InsertEverywhereKeepsOut(s, rep, c);
    } else if |s| < |pat| {
    } else if s[..|pat|] == pat {
      assert forall k :: 0 <= k < |s[|pat|..]| ==> s[|pat|..][k] == s[|pat| + k];
      ReplaceKeepsOut(s[|pat|..], pat, rep, c);
    } else {
      ReplaceKeepsOut(s[1..], pat, rep, c);
    }
  }

  /** Replacing a one-character pattern by text that does not contain it removes that character. */
  lemma {:induction false} ReplaceRemoves(s: seq<char>, c: char, rep: seq<char>)
    requires c !in rep
    ensures c !in Replace(s, [c], rep)
    decreases |s|
  {
    if |s| >= 1 {
      ReplaceRemoves(s[1..], c, rep);
    }
  }

  /** With a non-empty pattern that does not occur, replace is the identity. */
  lemma {:induction false} ReplaceAbsent(s: seq<char>, pat: seq<char>, rep: seq<char>)
    requires |pat| > 0 && !Contains(s, pat)
    ensures Replace(s, pat, rep) == s
    decreases |s|
  {
    if |s| >= |pat| {
      assert !OccursAt(s, pat, 0);
      assert s[..|pat|] != pat;
      forall i | OccursAt(s[1..], pat, i) ensures false {
        assert s[1..][i..i + |pat|] == s[i + 1..i + 1 + |pat|];
        assert OccursAt(s, pat, i + 1);
      }
      ReplaceAbsent(s[1..], pat, rep);
    }
  }

  /** A pattern whose first character is absent from `s` cannot occur in it. */
  lemma FirstCharAbsent(s: seq<char>, pat: seq<char>)
    requires |pat| > 0 && pat[0] !in s
    ensures !Contains(s, pat)
  {
  }

  /** Python's s.split(sep) with a one-character separator: empty fields are kept. */
  function Split(s: seq<char>, sep: char): (r: seq<seq<char>>)
    ensures |r| >= 1
    ensures forall k :: 0 <= k < |r| ==> sep !in r[k]
    decreases |s|
  {
    if s == [] then [[]]
    else
      var rest := Split(s[1..], sep);
      if s[0] == sep then [[]] + rest
      else [[s[0]] + rest[0]] + rest[1..]
  }

  /** A text without the separator splits into itself alone. */
  lemma {:induction false} SplitWithoutSep(s: seq<char>, sep: char)
    requires sep !in s
    ensures Split(s, sep) == [s]
    decreases |s|
  {
    if s != [] {
      SplitWithoutSep(s[1..], sep);
      assert [s[0]] + s[1..] == s;
    }
  }

  /** Joining with the separator undoes Split. */
  function Join(parts: seq<seq<char>>, sep: char): seq<char>
    requires |parts| >= 1
  {
    if |parts| == 1 then parts[0] else parts[0] + [sep] + Join(parts[1..], sep)
  }

  lemma {:induction false} JoinSplit(s: seq<char>, sep: char)
    ensures Join(Split(s, sep), sep) == s
    decreases |s|
  {
    if s != [] {
      var rest := Split(s[1..], sep);
      JoinSplit(s[1..], sep);
      if s[0] != sep {
        if |rest| == 1 {
        } else {
          assert rest == [rest[0]] + rest[1..];
          assert Join(rest, sep) == rest[0] + [sep] + Join(rest[1..], sep);
        }
      }
    }
  }

  /** The ASCII characters str.strip() removes. */
  predicate IsSpace(c: char)
  {
    c == ' ' || c == '\t' || c == '\n' || c == '\r' || c == '\U{B}' || c == '\U{C}'
  }

  /** s.strip() is empty: every character is white space. */
  predicate Blank(s: seq<char>)
  {
    forall i | 0 <= i < |s| :: IsSpace(s[i])
  }

  /** int(x) on a float: truncation toward zero. */
  function Trunc(x: real): (r: int)
    ensures x >= 0.0 ==> r as real <= x < r as real + 1.0
    ensures x < 0.0 ==> r as real - 1.0 < x <= r as real
  {
    if x >= 0.0 then x.Floor else -((-x).Floor)
  }

  /** Python's float x % y for y != 0: x minus the floored multiple of y. */
  function FMod(x: real, y: real): real
    requires y != 0.0
  {
    x - y * ((x / y).Floor as real)
  }

  /** x % y is periodic in x with period y. */
  lemma FModShift(x: real, y: real)
    requires y != 0.0
    ensures FMod(x + y, y) == FMod(x, y)
  {
    var z := x / y;
    var w := (x + y) / y;
    assert y * z == x;
    assert y * w == x + y;
    assert y * (z + 1.0) == y * z + y;
    MulCancel(y, w, z + 1.0);
    assert w.Floor == z.Floor + 1;
  }

  lemma MulNonneg(x: real, y: real)
    requires 0.0 <= x && 0.0 <= y
    ensures 0.0 <= x * y
  {
  }

  lemma MulCancel(y: real, a: real, b: real)
    requires y != 0.0 && y * a == y * b
    ensures a == b
  {
    assert y * (a - b) == 0.0;
  }

  function Abs(x: real): (r: real)
    ensures r >= 0.0 && (r == x || r == -x)
  {
    if x < 0.0 then -x else x
  }

  function Min(x: real, y: real): (r: real)
    ensures r <= x && r <= y && (r == x || r == y)
  {
    if x <= y then x else y
  }

  function Max(x: real, y: real): (r: real)
    ensures r >= x && r >= y && (r == x || r == y)
  {
    if x >= y then x else y
  }
}
