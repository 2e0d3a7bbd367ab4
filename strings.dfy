/** The JavaScript string operations the core relies on, over `seq<char>`. */
module Strings {

  /** `String.prototype.split` with a one-character separator. */
  function Split(s: string, sep: char): (parts: seq<string>)
    ensures |parts| >= 1
    ensures forall i :: 0 <= i < |parts| ==> sep !in parts[i]
  {
    if |s| == 0 then [""]
    else
      var rest := Split(s[1..], sep);
      if s[0] == sep then [""] + rest
      else [[s[0]] + rest[0]] + rest[1..]
  }

  /** `Array.prototype.join`. */
  function Join(parts: seq<string>, sep: string): string
  {
    if |parts| == 0 then ""
    else if |parts| == 1 then parts[0]
    else parts[0] + sep + Join(parts[1..], sep)
  }

  function Last<T>(s: seq<T>): T
    requires |s| > 0
  {
    s[|s| - 1]
  }

  /** Splitting and joining back with the same separator gives the input. */
  lemma {:induction false} JoinSplit(s: string, sep: char)
    ensures Join(Split(s, sep), [sep]) == s
  {
    if |s| > 0 {
      var rest := Split(s[1..], sep);
      JoinSplit(s[1..], sep);
      if s[0] == sep {
        assert Split(s, sep) == [""] + rest;
        assert s == [sep] + s[1..];
      } else {
        assert Split(s, sep) == [[s[0]] + rest[0]] + rest[1..];
        if |rest| == 1 {
          assert Join(rest, [sep]) == rest[0];
        } else {
          assert Join(rest, [sep]) == rest[0] + [sep] + Join(rest[1..], [sep]);
        }
        assert s == [s[0]] + s[1..];
      }
    }
  }

  /** Joining pieces free of the separator and splitting again gives the pieces back. */
  lemma {:induction false} SplitJoin(parts: seq<string>, sep: char)
    requires |parts| > 0
    requires forall i :: 0 <= i < |parts| ==> sep !in parts[i]
    ensures Split(Join(parts, [sep]), sep) == parts
  {
    if |parts| == 1 {
      SplitWithoutSeparator(parts[0], sep);
    } else {
      assert Join(parts, [sep]) == parts[0] + [sep] + Join(parts[1..], [sep]);
      SplitJoin(parts[1..], sep);
      SplitAppend(parts[0], sep, Join(parts[1..], [sep]));
      assert [parts[0]] + parts[1..] == parts;
    }
  }

  /** `r` is the text of `s` after its last `sep`, or all of `s` when it has none. */
  predicate IsTextAfterLast(s: string, sep: char, r: string)
  {
    && |r| <= |s| && r == s[|s| - |r|..] && sep !in r
    && (|r| < |s| ==> s[|s| - |r| - 1] == sep)
  }

  /** The last piece of a split is the text after the last separator, or the
      whole string when there is no separator. */
  lemma {:induction false} LastPiece(s: string, sep: char)
    ensures IsTextAfterLast(s, sep, Last(Split(s, sep)))
  {
    if |s| > 0 {
      var t := s[1..];
      var rest := Split(t, sep);
      LastPiece(t, sep);
      if s[0] != sep && |rest| == 1 {
        JoinSplit(t, sep);
        LastPieceWhole(s, sep);
      } else {
        var r := Last(rest);
        LastOfSplit(s, sep);
        if s[0] != sep && |r| == |t| {
          assert r == t;
          SplitWithoutSeparator(t, sep);
        }
        LastPieceExtend(s, sep, r);
      }
    }
  }

  lemma LastOfSplit(s: string, sep: char)
    requires |s| > 0 && (s[0] == sep || |Split(s[1..], sep)| > 1)
    ensures Last(Split(s, sep)) == Last(Split(s[1..], sep))
  {
    var rest := Split(s[1..], sep);
    if s[0] == sep {
      assert Split(s, sep) == [""] + rest;
    } else {
      var whole := [[s[0]] + rest[0]] + rest[1..];
      assert Split(s, sep) == whole;
      assert whole[|whole| - 1] == rest[|rest| - 1];
    }
  }

  lemma LastPieceWhole(s: string, sep: char)
    requires |s| > 0 && s[0] != sep && Split(s[1..], sep) == [s[1..]]
    ensures IsTextAfterLast(s, sep, Last(Split(s, sep)))
  {
    assert Split(s, sep) == [[s[0]] + s[1..]];
    assert [s[0]] + s[1..] == s;
  }

  lemma LastPieceExtend(s: string, sep: char, r: string)
    requires |s| > 0 && IsTextAfterLast(s[1..], sep, r)
    requires |r| == |s| - 1 ==> s[0] == sep
    ensures IsTextAfterLast(s, sep, r)
  {
    var t := s[1..];
    assert t[|t| - |r|..] == s[|s| - |r|..];
    assert |r| < |t| ==> t[|t| - |r| - 1] == s[|s| - |r| - 1];
  }

  /** There is only one text after the last separator. */
  lemma TextAfterLastUnique(s: string, sep: char, r1: string, r2: string)
    requires IsTextAfterLast(s, sep, r1) && IsTextAfterLast(s, sep, r2)
    ensures r1 == r2
  {
    if |r1| <= |r2| {
      TextAfterLastShorter(s, sep, r1, r2);
    } else {
      TextAfterLastShorter(s, sep, r2, r1);
    }
  }

  lemma TextAfterLastShorter(s: string, sep: char, short: string, long: string)
    requires IsTextAfterLast(s, sep, short) && IsTextAfterLast(s, sep, long)
    requires |short| <= |long|
    ensures short == long
  {
  }

  /** The text after a separator that is followed by no other is what follows it. */
  lemma TextAfterLastOfAppend(x: string, sep: char, y: string)
    requires sep !in y
    ensures IsTextAfterLast(x + [sep] + y, sep, y)
  {
    var s := x + [sep] + y;
    assert s[|s| - |y|..] == y;
    assert s[|s| - |y| - 1] == sep;
  }

  /** When the separator does not occur, split yields the whole string. */
  lemma {:induction false} SplitWithoutSeparator(s: string, sep: char)
    requires sep !in s
    ensures Split(s, sep) == [s]
  {
    if |s| > 0 {
      assert sep !in s[1..];
      SplitWithoutSeparator(s[1..], sep);
      assert [s[0]] + s[1..] == s;
    }
  }

  /** A prefix ending at a separator splits into its own pieces followed by the rest's. */
  lemma {:induction false} SplitAppend(a: string, sep: char, b: string)
    requires sep !in a
    ensures Split(a + [sep] + b, sep) == [a] + Split(b, sep)
  {
    if |a| == 0 {
      assert a + [sep] + b == [sep] + b;
      assert ([sep] + b)[1..] == b;
    } else {
      assert (a + [sep] + b)[1..] == a[1..] + [sep] + b;
      assert sep !in a[1..];
      SplitAppend(a[1..], sep, b);
      assert [a[0]] + a[1..] == a;
    }
  }

  // ---------------------------------------------------------------------------
  // Case

  /** `toLowerCase` on one character; only ASCII letters are mapped. */
  function LowerChar(c: char): char
  {
    if 'A' <= c <= 'Z' then (c as int + 32) as char else c
  }

  function Lower(s: string): (r: string)
    ensures |r| == |s|
    ensures forall i :: 0 <= i < |s| ==> r[i] == LowerChar(s[i])
  {
    if |s| == 0 then "" else [LowerChar(s[0])] + Lower(s[1..])
  }

  /** Lower-casing twice is lower-casing once. */
  lemma LowerIdempotent(s: string)
    ensures Lower(Lower(s)) == Lower(s)
  {
    var once := Lower(s);
    forall i | 0 <= i < |s|
      ensures Lower(once)[i] == once[i]
    {
    }
  }

  // ---------------------------------------------------------------------------
  // Searching

  predicate OccursAt(s: string, sub: string, i: int)
  {
    0 <= i && i + |sub| <= |s| && s[i..i + |sub|] == sub
  }

  /** `String.prototype.includes`. */
  predicate Contains(s: string, sub: string)
  {
    exists i :: 0 <= i <= |s| && OccursAt(s, sub, i)
  }

  /** A string contains whatever is spliced into it. */
  lemma ContainsMiddle(a: string, x: string, b: string)
    ensures Contains(a + x + b, x)
  {
    assert (a + x + b)[|a|..|a| + |x|] == x;
    assert OccursAt(a + x + b, x, |a|);
  }

  /** A string contains what is spliced after a prefix inside it. */
  lemma ContainsSpliced(a: string, b: string, x: string, c: string)
    ensures Contains(a + (b + x) + c, x)
  {
    assert a + (b + x) + c == (a + b) + x + c;
    ContainsMiddle(a + b, x, c);
  }

  /** A string contains what opens its last part. */
  lemma ContainsLeading(a: string, x: string, c: string)
    ensures Contains(a + (x + c), x)
  {
    assert a + (x + c) == a + x + c;
    ContainsMiddle(a, x, c);
  }

  /** `String.prototype.startsWith`. */
  predicate StartsWith(s: string, prefix: string)
  {
    |prefix| <= |s| && s[..|prefix|] == prefix
  }

  // ---------------------------------------------------------------------------
  // Trimming

  /** The ECMAScript WhiteSpace and LineTerminator code points. */
  predicate IsSpace(c: char)
  {
    || c == '\t' || c == '\n' || c == '\U{000B}' || c == '\U{000C}' || c == '\r' || c == ' '
    || c == '\U{00A0}' || c == '\U{1680}' || ('\U{2000}' <= c <= '\U{200A}')
    || c == '\U{2028}' || c == '\U{2029}' || c == '\U{202F}' || c == '\U{205F}'
    || c == '\U{3000}' || c == '\U{FEFF}'
  }

  function TrimStart(s: string): (r: string)
    ensures |r| <= |s| && r == s[|s| - |r|..]
    ensures forall j :: 0 <= j < |s| - |r| ==> IsSpace(s[j])
    ensures |r| > 0 ==> !IsSpace(r[0])
  {
    if |s| > 0 && IsSpace(s[0]) then TrimStart(s[1..]) else s
  }

  function TrimEnd(s: string): (r: string)
    ensures |r| <= |s| && r == s[..|r|]
    ensures forall j :: |r| <= j < |s| ==> IsSpace(s[j])
    ensures |r| > 0 ==> !IsSpace(r[|r| - 1])
  {
    if |s| > 0 && IsSpace(s[|s| - 1]) then TrimEnd(s[..|s| - 1]) else s
  }

  /** `String.prototype.trim`. */
  function Trim(s: string): string
  {
    TrimEnd(TrimStart(s))
  }

  /** Trimming keeps an occurrence of a word that neither starts nor ends with white space. */
  lemma ContainsAfterTrim(s: string, word: string)
    requires |word| > 0 && !IsSpace(word[0]) && !IsSpace(word[|word| - 1])
    requires Contains(s, word)
    ensures Contains(Trim(s), word)
  {
    var i :| 0 <= i <= |s| && OccursAt(s, word, i);
    var k := OccursAfterTrimStart(s, word, i);
    var _ := OccursAfterTrimEnd(TrimStart(s), word, k);
  }

  lemma OccursAfterTrimStart(s: string, word: string, i: int) returns (k: int)
    requires |word| > 0 && !IsSpace(word[0])
    requires OccursAt(s, word, i)
    ensures k == i - (|s| - |TrimStart(s)|) && OccursAt(TrimStart(s), word, k)
  {
    var t := TrimStart(s);
    var d := |s| - |t|;
    assert s[i] == s[i..i + |word|][0];
    k := i - d;
    assert t[k..k + |word|] == s[i..i + |word|];
  }

  lemma OccursAfterTrimEnd(s: string, word: string, i: int) returns (k: int)
    requires |word| > 0 && !IsSpace(word[|word| - 1])
    requires OccursAt(s, word, i)
    ensures k == i && OccursAt(TrimEnd(s), word, k) && 0 <= k <= |TrimEnd(s)|
  {
    var u := TrimEnd(s);
    k := i;
    assert s[i + |word| - 1] == s[i..i + |word|][|word| - 1];
    assert u[i..i + |word|] == s[i..i + |word|];
  }

  // ---------------------------------------------------------------------------
  // Numbers

  function DigitChar(d: nat): char
    requires d < 10
  {
    "0123456789"[d]
  }

  /** The decimal rendering of a natural number, as a template string prints it. */
  function NatToString(n: nat): (r: string)
    ensures |r| >= 1
    ensures forall i :: 0 <= i < |r| ==> '0' <= r[i] <= '9'
  {
    if n < 10 then [DigitChar(n)] else NatToString(n / 10) + [DigitChar(n % 10)]
  }
}
