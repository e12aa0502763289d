/** String operations the source relies on: JavaScript's `<=` on strings, the zero-padded
    "HH:mm" rendering, `split`, `trim` and a case-insensitive substring test. */
module Strings {

  /** JavaScript's `a <= b` on strings: lexicographic comparison character by character,
      a proper prefix ordering before the longer string. */
  function LexLe(a: string, b: string): (r: bool)
    ensures |a| <= |b| && a == b[..|a|] ==> r
    ensures |b| < |a| && b == a[..|b|] ==> !r
  {
    if a == [] then true
    else if b == [] then false
    else if a[0] != b[0] then a[0] < b[0]
    else LexLe(a[1..], b[1..])
  }

  /** The first position where two strings differ decides their order. */
  lemma {:induction false} LexLeFirstDifference(a: string, b: string, k: nat)
    requires k < |a| && k < |b| && a[..k] == b[..k] && a[k] != b[k]
    ensures LexLe(a, b) <==> a[k] < b[k]
  {
    if k > 0 {
      assert a[0] == a[..k][0] == b[..k][0] == b[0];
      assert a[1..][..k - 1] == a[..k][1..] == b[..k][1..] == b[1..][..k - 1];
      LexLeFirstDifference(a[1..], b[1..], k - 1);
    }
  }

  lemma {:induction false} LexLeReflexive(a: string)
    ensures LexLe(a, a)
  {
    if a != [] { LexLeReflexive(a[1..]); }
  }

  lemma {:induction false} LexLeTotal(a: string, b: string)
    ensures LexLe(a, b) || LexLe(b, a)
  {
    if a != [] && b != [] && a[0] == b[0] { LexLeTotal(a[1..], b[1..]); }
  }

  lemma {:induction false} LexLeAntisymmetric(a: string, b: string)
    requires LexLe(a, b) && LexLe(b, a)
    ensures a == b
  {
    if a != [] && b != [] {
      LexLeAntisymmetric(a[1..], b[1..]);
      assert a == [a[0]] + a[1..] && b == [b[0]] + b[1..];
    }
  }

  lemma {:induction false} LexLeTransitive(a: string, b: string, c: string)
    requires LexLe(a, b) && LexLe(b, c)
    ensures LexLe(a, c)
  {
    if a != [] && b != [] && c != [] && a[0] == b[0] && b[0] == c[0] {
      LexLeTransitive(a[1..], b[1..], c[1..]);
    }
  }

  /** JavaScript's `a < b` on strings. */
  predicate LexLt(a: string, b: string)
  {
    LexLe(a, b) && a != b
  }

  /** JavaScript evaluates `a >= b` as `!(a < b)`; on strings that is `b <= a`. */
  lemma NotLessIsReversedLe(a: string, b: string)
    ensures !LexLt(a, b) == LexLe(b, a)
  {
    LexLeTotal(a, b);
    LexLeReflexive(a);
    if LexLe(a, b) && LexLe(b, a) { LexLeAntisymmetric(a, b); }
  }

  /** The later of two strings under LexLe. */
  function LexMax(a: string, b: string): (r: string)
    ensures LexLe(a, r) && LexLe(b, r)
    ensures r == a || r == b
  {
    LexLeTotal(a, b);
    LexLeReflexive(a);
    LexLeReflexive(b);
    if LexLe(a, b) then b else a
  }

  function Digit(d: nat): (c: char)
    requires d < 10
    ensures '0' <= c <= '9'
  {
    ('0' as int + d) as char
  }

  /** `n.toString().padStart(2, "0")` for 0 <= n < 100. */
  function Pad2(n: nat): (s: string)
    requires n < 100
    ensures |s| == 2 && s[0] == Digit(n / 10) && s[1] == Digit(n % 10)
  {
    [Digit(n / 10), Digit(n % 10)]
  }

  /** The zero-padded "HH:mm" string the price lookup builds from an hour and a minute. */
  function TimeString(hour: nat, minute: nat): (s: string)
    requires hour < 24 && minute < 60
    ensures |s| == 5 && s[2] == ':'
  {
    Pad2(hour) + ":" + Pad2(minute)
  }

  lemma DigitOrder(a: nat, b: nat)
    requires a < 10 && b < 10
    ensures (Digit(a) < Digit(b)) == (a < b)
    ensures (Digit(a) == Digit(b)) == (a == b)
  {
  }

  lemma Pad2Order(a: nat, b: nat)
    requires a < 100 && b < 100
    ensures (Pad2(a)[0] < Pad2(b)[0] || (Pad2(a)[0] == Pad2(b)[0] && Pad2(a)[1] < Pad2(b)[1])) == (a < b)
    ensures (Pad2(a) == Pad2(b)) == (a == b)
  {
    DigitOrder(a / 10, b / 10);
    DigitOrder(a % 10, b % 10);
    if Pad2(a) == Pad2(b) {
      assert a == (a / 10) * 10 + a % 10 && b == (b / 10) * 10 + b % 10;
    }
  }

  lemma LexLeStep(a: string, b: string)
    requires a != [] && b != []
    ensures LexLe(a, b) == (a[0] < b[0] || (a[0] == b[0] && LexLe(a[1..], b[1..])))
  {
  }

  /** Comparing two rendered "HH:mm" strings as JavaScript does agrees with comparing the
      minutes since midnight they denote. */
  lemma TimeStringOrder(h1: nat, m1: nat, h2: nat, m2: nat)
    requires h1 < 24 && m1 < 60 && h2 < 24 && m2 < 60
    ensures LexLe(TimeString(h1, m1), TimeString(h2, m2)) == (h1 * 60 + m1 <= h2 * 60 + m2)
  {
    var s, t := TimeString(h1, m1), TimeString(h2, m2);
    var p, q := Pad2(h1), Pad2(h2);
    var u, v := Pad2(m1), Pad2(m2);
    Pad2Order(h1, h2);
    Pad2Order(m1, m2);
    assert s == [p[0], p[1], ':', u[0], u[1]] && t == [q[0], q[1], ':', v[0], v[1]];
    var s3, t3 := s[3..], t[3..];
    assert s3 == [u[0], u[1]] && t3 == [v[0], v[1]];
    LexLeStep(s3, t3);
    LexLeStep(s3[1..], t3[1..]);
    assert s3[1..][1..] == [] && t3[1..][1..] == [];
    assert LexLe(s3, t3) == (m1 <= m2);
    LexLeStep(s[2..], t[2..]);
    assert s[2..][1..] == s3 && t[2..][1..] == t3;
    LexLeStep(s[1..], t[1..]);
    assert s[1..][1..] == s[2..] && t[1..][1..] == t[2..];
    LexLeStep(s, t);
    assert LexLe(s, t) == (h1 < h2 || (h1 == h2 && m1 <= m2));
  }

  /** `s.split(sep)` in JavaScript: the pieces between separators, keeping empty pieces;
      the empty string splits into one empty piece. */
  function Split(s: string, sep: char): (parts: seq<string>)
    ensures |parts| >= 1
    ensures forall k :: 0 <= k < |parts| ==> sep !in parts[k]
  {
    if s == [] then [""]
    else
      var init := Split(s[..|s| - 1], sep);
      var c := s[|s| - 1];
      if c == sep then init + [""]
      else init[..|init| - 1] + [init[|init| - 1] + [c]]
  }

  /** A last piece with no separator in it is the last part of the split. */
  lemma {:induction false} SplitLastPiece(prefix: string, sep: char, last: string)
    requires sep !in last
    ensures var parts := Split(prefix + [sep] + last, sep);
            parts[|parts| - 1] == last && parts[..|parts| - 1] == Split(prefix, sep)
  {
    if last == [] {
      assert prefix + [sep] + last == prefix + [sep];
      assert (prefix + [sep])[..|prefix + [sep]| - 1] == prefix;
    } else {
      var s := prefix + [sep] + last;
      var shorter := last[..|last| - 1];
      assert s[..|s| - 1] == prefix + [sep] + shorter;
      SplitLastPiece(prefix, sep, shorter);
      assert shorter + [last[|last| - 1]] == last;
    }
  }

  /** A string without the separator splits into itself alone. */
  lemma {:induction false} SplitNoSeparator(s: string, sep: char)
    requires sep !in s
    ensures Split(s, sep) == [s]
  {
    if s != [] {
      SplitNoSeparator(s[..|s| - 1], sep);
      assert s[..|s| - 1] + [s[|s| - 1]] == s;
    }
  }

  /** `parts.join(sep)` for a non-empty list. */
  function Join(parts: seq<string>, sep: char): (s: string)
    requires parts != []
  {
    if |parts| == 1 then parts[0]
    else Join(parts[..|parts| - 1], sep) + [sep] + parts[|parts| - 1]
  }

  /** Splitting undoes joining when no part holds the separator. */
  lemma {:induction false} SplitJoin(parts: seq<string>, sep: char)
    requires parts != []
    requires forall k :: 0 <= k < |parts| ==> sep !in parts[k]
    ensures Split(Join(parts, sep), sep) == parts
  {
    if |parts| == 1 {
      SplitNoSeparator(parts[0], sep);
    } else {
      var init := parts[..|parts| - 1];
      SplitJoin(init, sep);
      SplitLastPiece(Join(init, sep), sep, parts[|parts| - 1]);
      assert init + [parts[|parts| - 1]] == parts;
    }
  }

  /** The characters `String.prototype.trim` removes: the ECMAScript WhiteSpace (tab, vertical
      tab, form feed, space, no-break space, the byte order mark and the other space separators)
      and LineTerminator (line feed, carriage return, line and paragraph separators) sets. */
  predicate IsSpace(c: char)
  {
    c == '\t' || c == '\U{000B}' || c == '\U{000C}' || c == ' ' || c == '\U{00A0}' || c == '\U{FEFF}'
    || c == '\U{1680}' || ('\U{2000}' <= c <= '\U{200A}') || c == '\U{202F}' || c == '\U{205F}' || c == '\U{3000}'
    || c == '\n' || c == '\r' || c == '\U{2028}' || c == '\U{2029}'
  }

  /** `s.trimStart()`: the input without its leading whitespace. */
  function TrimStart(s: string): (r: string)
    ensures r == [] || !IsSpace(r[0])
    ensures forall c :: c in r ==> c in s
    ensures s == [] || !IsSpace(s[0]) ==> r == s
    ensures |r| <= |s|
    ensures r != [] ==> r[|r| - 1] == s[|s| - 1]
  {
    if s != [] && IsSpace(s[0]) then
      var r := TrimStart(s[1..]);
      assert s[1..] != [] ==> s[1..][|s[1..]| - 1] == s[|s| - 1];
      r
    else s
  }

  /** `s.trimEnd()`: the input without its trailing whitespace. */
  function TrimEnd(s: string): (r: string)
    ensures r == [] || !IsSpace(r[|r| - 1])
    ensures forall c :: c in r ==> c in s
    ensures s == [] || !IsSpace(s[|s| - 1]) ==> r == s
    ensures |r| <= |s|
    ensures r != [] ==> r[0] == s[0]
  {
    if s != [] && IsSpace(s[|s| - 1]) then
      var r := TrimEnd(s[..|s| - 1]);
      assert s[..|s| - 1] != [] ==> s[..|s| - 1][0] == s[0];
      r
    else s
  }

  /** `s.trim()`. */
  function Trim(s: string): (r: string)
    ensures r == [] || (!IsSpace(r[0]) && !IsSpace(r[|r| - 1]))
    ensures forall c :: c in r ==> c in s
    ensures s == [] || (!IsSpace(s[0]) && !IsSpace(s[|s| - 1])) ==> r == s
  {
    TrimEnd(TrimStart(s))
  }

  /** `trimStart` removes a prefix, and only white space. */
  lemma {:induction false} TrimStartIsSuffix(s: string)
    ensures var r := TrimStart(s);
            r == s[|s| - |r|..] && forall k :: 0 <= k < |s| - |r| ==> IsSpace(s[k])
  {
    if s != [] && IsSpace(s[0]) {
      TrimStartIsSuffix(s[1..]);
      var r := TrimStart(s[1..]);
      assert s[1..][|s[1..]| - |r|..] == s[|s| - |r|..];
      forall k | 0 <= k < |s| - |r|
        ensures IsSpace(s[k])
      {
        if k > 0 { assert s[k] == s[1..][k - 1]; }
      }
    }
  }

  /** `trimEnd` removes a suffix, and only white space. */
  lemma {:induction false} TrimEndIsPrefix(s: string)
    ensures var r := TrimEnd(s);
            r == s[..|r|] && forall k :: |r| <= k < |s| ==> IsSpace(s[k])
  {
    if s != [] && IsSpace(s[|s| - 1]) {
      var s' := s[..|s| - 1];
      TrimEndIsPrefix(s');
      var r := TrimEnd(s');
      assert s'[..|r|] == s[..|r|];
      forall k | |r| <= k < |s|
        ensures IsSpace(s[k])
      {
        if k < |s| - 1 { assert s[k] == s'[k]; }
      }
    }
  }

  /** `trim` keeps one contiguous slice of the input, with only white space cut before and after it. */
  lemma TrimIsSlice(s: string)
    ensures var r := Trim(s);
            var i := |s| - |TrimStart(s)|;
            && i + |r| <= |s| && r == s[i..i + |r|]
            && (forall k :: 0 <= k < i ==> IsSpace(s[k]))
            && (forall k :: i + |r| <= k < |s| ==> IsSpace(s[k]))
  {
    TrimStartIsSuffix(s);
    TrimEndIsPrefix(TrimStart(s));
    TrimBothEnds(s, TrimStart(s), TrimEnd(TrimStart(s)));
  }

  /** Trimming the end of the trimmed start leaves a slice of s between two blank runs. */
  lemma TrimBothEnds(s: string, t: string, r: string)
    requires |t| <= |s| && t == s[|s| - |t|..] && forall k :: 0 <= k < |s| - |t| ==> IsSpace(s[k])
    requires |r| <= |t| && r == t[..|r|] && forall k :: |r| <= k < |t| ==> IsSpace(t[k])
    ensures var i := |s| - |t|;
            && i + |r| <= |s| && r == s[i..i + |r|]
            && (forall k :: 0 <= k < i ==> IsSpace(s[k]))
            && (forall k :: i + |r| <= k < |s| ==> IsSpace(s[k]))
  {
    var i := |s| - |t|;
    assert s[i..][..|r|] == s[i..i + |r|];
    forall k | i + |r| <= k < |s|
      ensures IsSpace(s[k])
    {
      assert s[k] == t[k - i];
    }
  }

  /** ASCII lower-casing: a case-insensitive JavaScript regular expression without the `u` flag
      folds only ASCII letters onto the ASCII pattern used here. */
  function Lower(c: char): char
  {
    if 'A' <= c <= 'Z' then (c as int + 32) as char else c
  }

  function LowerString(s: string): (r: string)
    ensures |r| == |s|
    ensures forall k :: 0 <= k < |s| ==> r[k] == Lower(s[k])
  {
    if s == [] then [] else [Lower(s[0])] + LowerString(s[1..])
  }

  predicate ContainsAt(s: string, pat: string, k: nat)
  {
    k + |pat| <= |s| && s[k..k + |pat|] == pat
  }

  /** `/pat/i.test(s)` for an ASCII lower-case literal pattern. */
  predicate ContainsIgnoringCase(s: string, pat: string)
  {
    exists k :: 0 <= k <= |s| && ContainsAt(LowerString(s), pat, k)
  }
}
