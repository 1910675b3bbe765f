/** The JavaScript string operations the code generators use: slicing, upper-casing,
    splitting on a separator, and the code-unit order MongoDB sorts string fields by. */
module Text {

  function Min(a: nat, b: nat): nat { if a <= b then a else b }

  /** Upper-casing of one character, for the ASCII letters only. JavaScript's `toUpperCase`
      maps every Unicode letter and may lengthen the string (ß becomes SS); this model keeps
      every non-ASCII character as it is. */
  function UpperChar(c: char): char {
    if 'a' <= c <= 'z' then (c as int - 32) as char else c
  }

  /** `s.toUpperCase()` on ASCII text: each character upper-cased by `UpperChar`, so the
      length never changes. */
  function ToUpper(s: string): (r: string)
    ensures |r| == |s|
    ensures forall i :: 0 <= i < |s| ==> r[i] == UpperChar(s[i])
  {
    if s == [] then [] else [UpperChar(s[0])] + ToUpper(s[1..])
  }

  /** `s.slice(0, n)`: the first `n` characters, or all of them when there are fewer. A
      character here is a code point; JavaScript counts UTF-16 code units, which differ for
      characters outside the Basic Multilingual Plane. */
  function Take(s: string, n: nat): (r: string)
    ensures |r| == Min(n, |s|)
    ensures r == s[..|r|]
  {
    s[..Min(n, |s|)]
  }

  /** `s.split(sep)`: the pieces between the occurrences of `sep`, in order. */
  function Split(s: string, sep: char): (parts: seq<string>)
    ensures |parts| >= 1
  {
    if s == [] then [""]
    else
      var rest := Split(s[1..], sep);
      if s[0] == sep then [""] + rest else [[s[0]] + rest[0]] + rest[1..]
  }

  lemma {:induction false} SplitWithoutSeparator(s: string, sep: char)
    requires sep !in s
    ensures Split(s, sep) == [s]
  {
    if s != [] {
      SplitWithoutSeparator(s[1..], sep);
      assert [s[0]] + s[1..] == s;
    }
  }

  /** Splitting `word + [sep] + tail` on `sep` gives `word` and `tail` when neither holds `sep`. */
  lemma {:induction false} SplitAtSeparator(word: string, sep: char, tail: string)
    requires sep !in word && sep !in tail
    ensures Split(word + [sep] + tail, sep) == [word, tail]
  {
    if word == [] {
      assert ([sep] + tail)[1..] == tail;
      SplitWithoutSeparator(tail, sep);
    } else {
      assert (word + [sep] + tail)[1..] == word[1..] + [sep] + tail;
      SplitAtSeparator(word[1..], sep, tail);
      assert [word[0]] + word[1..] == word;
    }
  }

  /** Strict lexicographic order on code points: the order of MongoDB's `sort` on a string
      field (a binary comparison of UTF-8). A proper prefix sorts first. */
  predicate LexLess(a: string, b: string) {
    |b| > 0 && (|a| == 0 || a[0] < b[0] || (a[0] == b[0] && LexLess(a[1..], b[1..])))
  }

  lemma {:induction false} LexLessIrreflexive(a: string)
    ensures !LexLess(a, a)
  {
    if |a| > 0 { LexLessIrreflexive(a[1..]); }
  }

  lemma {:induction false} LexLessTransitive(a: string, b: string, c: string)
    requires LexLess(a, b) && LexLess(b, c)
    ensures LexLess(a, c)
  {
    if |a| > 0 && a[0] == b[0] && b[0] == c[0] {
      LexLessTransitive(a[1..], b[1..], c[1..]);
    }
  }

  /** Two different strings are always ordered one way or the other. */
  lemma {:induction false} LexLessTotal(a: string, b: string)
    requires a != b
    ensures LexLess(a, b) || LexLess(b, a)
  {
    if |a| > 0 && |b| > 0 && a[0] == b[0] {
      assert a == [a[0]] + a[1..] && b == [b[0]] + b[1..];
      LexLessTotal(a[1..], b[1..]);
    }
  }

  lemma {:induction false} LexLessAsymmetric(a: string, b: string)
    requires LexLess(a, b)
    ensures !LexLess(b, a)
  {
    if LexLess(b, a) {
      LexLessTransitive(a, b, a);
      LexLessIrreflexive(a);
    }
  }

  /** "Not after" is transitive too: the order `sort({ field: 1 })` arranges strings in. */
  lemma LexNotLessTransitive(a: string, b: string, c: string)
    requires !LexLess(b, a) && !LexLess(c, b)
    ensures !LexLess(c, a)
  {
    if LexLess(c, a) {
      if a != b { LexLessTotal(a, b); LexLessTransitive(c, a, b); }
    }
  }

  /** A common prefix does not change the order of two strings. */
  lemma {:induction false} LexLessPrefix(p: string, a: string, b: string)
    ensures LexLess(p + a, p + b) <==> LexLess(a, b)
  {
    if p != [] {
      assert (p + a)[0] == p[0] == (p + b)[0];
      assert (p + a)[1..] == p[1..] + a && (p + b)[1..] == p[1..] + b;
      assert LexLess(p + a, p + b) == LexLess(p[1..] + a, p[1..] + b);
      LexLessPrefix(p[1..], a, b);
    } else {
      assert p + a == a && p + b == b;
    }
  }

  /** The greatest string of a non-empty collection: what `findOne().sort({ field: -1 })` selects. */
  function MaxLex(s: seq<string>): (m: string)
    requires |s| > 0
    ensures m in s
    ensures forall x :: x in s ==> !LexLess(m, x)
  {
    if |s| == 1 then
      LexLessIrreflexive(s[0]);
      s[0]
    else
      var rest := MaxLex(s[1..]);
      if LexLess(s[0], rest) then
        forall x | x in s ensures !LexLess(rest, x) {
          if x == s[0] { LexLessAsymmetric(s[0], rest); } else { assert x in s[1..]; }
        }
        rest
      else
        forall x | x in s ensures !LexLess(s[0], x) {
          if x != s[0] {
            assert x in s[1..];
            if LexLess(s[0], x) {
              if rest != s[0] { LexLessTotal(rest, s[0]); }
              LexLessTransitive(rest, s[0], x);
            }
          } else {
            LexLessIrreflexive(s[0]);
          }
        }
        s[0]
  }
}
