/** The Python string operations the helper relies on: `sep.join`, `s.split`,
    `sub in s`, `s.startswith`, `s.lower()` and `s.replace`. */
module Text {

  /** `sep.join(parts)`. */
  function Join(sep: string, parts: seq<string>): string
    decreases |parts|
  {
    if |parts| == 0 then ""
    else if |parts| == 1 then parts[0]
    else parts[0] + sep + Join(sep, parts[1..])
  }

  /** `s.split(c)` for a one-character separator. */
  function Split(c: char, s: string): (r: seq<string>)
    ensures |r| >= 1
    decreases |s|
  {
    if |s| == 0 then [""]
    else
      var rest := Split(c, s[1..]);
      if s[0] == c then [""] + rest else [[s[0]] + rest[0]] + rest[1..]
  }

  /** `s.startswith(prefix)`. */
  predicate StartsWith(s: string, prefix: string) {
    |prefix| <= |s| && s[..|prefix|] == prefix
  }

  /** Python's `sub in s`. */
  predicate Contains(s: string, sub: string)
    decreases |s|
  {
    StartsWith(s, sub) || (|s| > 0 && Contains(s[1..], sub))
  }

  /** `c.lower()` on the ASCII letters; other characters are kept. */
  function LowerChar(c: char): char {
    if 'A' <= c <= 'Z' then (c as int + 32) as char else c
  }

  /** `s.lower()`, restricted to ASCII case. */
  function Lower(s: string): string {
    seq(|s|, i requires 0 <= i < |s| => LowerChar(s[i]))
  }

  /** `s.replace(pat, rep)`: every non-overlapping occurrence, scanned from the left. */
  function ReplaceAll(s: string, pat: string, rep: string): string
    decreases |s|
  {
    if |pat| == 0 then Interleave(s, rep)
    else if StartsWith(s, pat) then rep + ReplaceAll(s[|pat|..], pat, rep)
    else if |s| == 0 then ""
    else [s[0]] + ReplaceAll(s[1..], pat, rep)
  }

  /** `s.replace("", rep)`: `rep` before, between and after the characters. */
  function Interleave(s: string, rep: string): string
    decreases |s|
  {
    if |s| == 0 then rep else rep + [s[0]] + Interleave(s[1..], rep)
  }

  /** The characters of `s` other than `c`, in order (reference definition). */
  function Without(s: string, c: char): string
    decreases |s|
  {
    if |s| == 0 then ""
    else (if s[0] == c then "" else [s[0]]) + Without(s[1..], c)
  }

  /** `s` with every `c` turned into `d` (reference definition). */
  function Substitute(s: string, c: char, d: char): string
    decreases |s|
  {
    if |s| == 0 then "" else [if s[0] == c then d else s[0]] + Substitute(s[1..], c, d)
  }

  // ---------------------------------------------------------------- lemmas

  lemma {:induction false} SplitWhole(c: char, p: string)
    requires c !in p
    ensures Split(c, p) == [p]
    decreases |p|
  {
    if |p| > 0 {
      SplitWhole(c, p[1..]);
      assert [p[0]] + p[1..] == p;
    }
  }

  lemma {:induction false} SplitPart(c: char, p: string, s: string)
    requires c !in p
    ensures Split(c, p + [c] + s) == [p] + Split(c, s)
    decreases |p|
  {
    if |p| == 0 {
      assert p + [c] + s == [c] + s;
      assert ([c] + s)[1..] == s;
    } else {
      var w := p + [c] + s;
      assert w[0] == p[0];
      assert w[1..] == p[1..] + [c] + s;
      SplitPart(c, p[1..], s);
      assert [p[0]] + p[1..] == p;
    }
  }

  /** Splitting a join at its separator gives the parts back, as long as no part
      contains the separator: the join keeps every part and their order. */
  lemma {:induction false} SplitJoin(c: char, parts: seq<string>)
    requires |parts| >= 1
    requires forall i :: 0 <= i < |parts| ==> c !in parts[i]
    ensures Split(c, Join([c], parts)) == parts
    decreases |parts|
  {
    if |parts| == 1 {
      SplitWhole(c, parts[0]);
    } else {
      SplitJoin(c, parts[1..]);
      SplitPart(c, parts[0], Join([c], parts[1..]));
      assert parts == [parts[0]] + parts[1..];
    }
  }

  /** A string that contains `a + b` contains `a`. */
  lemma {:induction false} ContainsPrefixOf(s: string, a: string, b: string)
    requires Contains(s, a + b)
    ensures Contains(s, a)
    decreases |s|
  {
    if StartsWith(s, a + b) {
      assert s[..|a|] == (s[..|a + b|])[..|a|];
      assert (a + b)[..|a|] == a;
    } else {
      ContainsPrefixOf(s[1..], a, b);
    }
  }

  lemma {:induction false} InterleaveNothing(s: string)
    ensures Interleave(s, "") == s
    decreases |s|
  {
    if |s| > 0 {
      InterleaveNothing(s[1..]);
      assert [s[0]] + s[1..] == s;
    }
  }

  /** Removing a one-character pattern keeps every other character in order. */
  lemma {:induction false} RemoveChar(s: string, c: char)
    ensures ReplaceAll(s, [c], "") == Without(s, c)
    decreases |s|
  {
    if |s| > 0 {
      RemoveChar(s[1..], c);
      if s[0] == c {
        assert StartsWith(s, [c]);
        assert s[|[c]|..] == s[1..];
      } else {
        assert !StartsWith(s, [c]);
      }
    }
  }

  /** Replacing a one-character pattern by one character is a character-wise substitution. */
  lemma {:induction false} ReplaceChar(s: string, c: char, d: char)
    ensures ReplaceAll(s, [c], [d]) == Substitute(s, c, d)
    decreases |s|
  {
    if |s| > 0 {
      ReplaceChar(s[1..], c, d);
      if s[0] == c {
        assert StartsWith(s, [c]);
        assert s[|[c]|..] == s[1..];
      } else {
        assert !StartsWith(s, [c]);
      }
    }
  }

  lemma {:induction false} WithoutDrops(s: string, c: char)
    ensures c !in Without(s, c)
    ensures forall x :: x in Without(s, c) <==> x in s && x != c
    decreases |s|
  {
    if |s| > 0 {
      WithoutDrops(s[1..], c);
      assert s == [s[0]] + s[1..];
    }
  }

  lemma {:induction false} SubstituteReplaces(s: string, c: char, d: char)
    requires c != d
    ensures c !in Substitute(s, c, d)
    ensures |Substitute(s, c, d)| == |s|
    decreases |s|
  {
    if |s| > 0 {
      SubstituteReplaces(s[1..], c, d);
    }
  }
}
