/** The few Python string operations the instrument classes rely on:
    `lower()`, `in`, `strip()`/`strip(chars)` and `split(sep)`. */
module Text {

  /** The characters for which Python's str.isspace() holds; str.strip()
      without an argument removes these. */
  const Whitespace: set<char> := {
    ' ', '\t', '\n', '\r', '\U{000B}', '\U{000C}',
    '\U{001C}', '\U{001D}', '\U{001E}', '\U{001F}', '\U{0085}', '\U{00A0}',
    '\U{1680}', '\U{2000}', '\U{2001}', '\U{2002}', '\U{2003}', '\U{2004}',
    '\U{2005}', '\U{2006}', '\U{2007}', '\U{2008}', '\U{2009}', '\U{200A}',
    '\U{2028}', '\U{2029}', '\U{202F}', '\U{205F}', '\U{3000}'
  }

  function LowerChar(c: char): char {
    if 'A' <= c <= 'Z' then (c as int + 32) as char else c
  }

  /** str.lower(), restricted to the ASCII letters. */
  function Lower(s: string): (r: string)
    ensures |r| == |s|
    ensures forall k :: 0 <= k < |r| ==> !('A' <= r[k] <= 'Z')
    ensures forall k :: 0 <= k < |s| && !('A' <= s[k] <= 'Z') ==> r[k] == s[k]
    ensures forall k :: 0 <= k < |s| && 'A' <= s[k] <= 'Z' ==> r[k] as int == s[k] as int + 32
  {
    seq(|s|, i requires 0 <= i < |s| => LowerChar(s[i]))
  }

  /** Python's `t in s`: t occurs in s as a contiguous substring. */
  predicate Contains(s: string, t: string)
    ensures Contains(s, t) ==> |t| <= |s|
  {
    t <= s || (s != [] && Contains(s[1..], t))
  }

  /** t occurs in s starting at index i. */
  predicate OccursAt(s: string, t: string, i: nat) {
    i + |t| <= |s| && s[i..i + |t|] == t
  }

  /** Contains finds an occurrence wherever it starts. */
  lemma {:induction false} ContainsAt(s: string, t: string, i: nat)
    requires OccursAt(s, t, i)
    ensures Contains(s, t)
    decreases i
  {
    if i == 0 {
      assert s[..|t|] == t;
    } else {
      assert s[1..][i - 1..i - 1 + |t|] == s[i..i + |t|];
      ContainsAt(s[1..], t, i - 1);
    }
  }

  /** Contains means exactly that t occurs at some index of s. */
  lemma {:induction false} ContainsIff(s: string, t: string)
    ensures Contains(s, t) <==> exists i: nat :: OccursAt(s, t, i)
    decreases |s|
  {
    if Contains(s, t) {
      if t <= s {
        assert s[0..0 + |t|] == t;
        assert OccursAt(s, t, 0);
      } else {
        ContainsIff(s[1..], t);
        var i: nat :| OccursAt(s[1..], t, i);
        assert s[1..][i..i + |t|] == s[i + 1..i + 1 + |t|];
        assert OccursAt(s, t, i + 1);
      }
    }
    if exists i: nat :: OccursAt(s, t, i) {
      var i: nat :| OccursAt(s, t, i);
      ContainsAt(s, t, i);
    }
  }

  /** Lower-casing keeps every occurrence: if t occurs in s, the lower-cased
      t occurs in the lower-cased s. */
  lemma {:induction false} LowerKeepsContains(s: string, t: string)
    requires Contains(s, t)
    ensures Contains(Lower(s), Lower(t))
    decreases |s|
  {
    if t <= s {
      assert Lower(t) == Lower(s)[..|t|];
    } else {
      LowerKeepsContains(s[1..], t);
      assert Lower(s)[1..] == Lower(s[1..]);
    }
  }

  /** Removes the leading characters of s that belong to cs. */
  function TrimStart(s: string, cs: set<char>): (r: string)
    ensures |r| <= |s| && r == s[|s| - |r|..]
    ensures forall k :: 0 <= k < |s| - |r| ==> s[k] in cs
    ensures r != [] ==> r[0] !in cs
  {
    if s != [] && s[0] in cs then TrimStart(s[1..], cs) else s
  }

  /** Removes the trailing characters of s that belong to cs. */
  function TrimEnd(s: string, cs: set<char>): (r: string)
    ensures |r| <= |s| && r == s[..|r|]
    ensures forall k :: |r| <= k < |s| ==> s[k] in cs
    ensures r != [] ==> r[|r| - 1] !in cs
  {
    if s != [] && s[|s| - 1] in cs then TrimEnd(s[..|s| - 1], cs) else s
  }

  /** s.strip(chars): characters of cs are removed from the front and from
      the back until neither end holds one. The result is empty exactly when
      every character of s is in cs. */
  function Strip(s: string, cs: set<char>): (r: string)
    ensures r == [] || (r[0] !in cs && r[|r| - 1] !in cs)
    ensures r == [] <==> forall k :: 0 <= k < |s| ==> s[k] in cs
  {
    if s != [] && s[0] in cs then Strip(s[1..], cs)
    else if s != [] && s[|s| - 1] in cs then Strip(s[..|s| - 1], cs)
    else s
  }

  /** Strip agrees with trimming the front and then the back. */
  lemma {:induction false} StripIsTrimBoth(s: string, cs: set<char>)
    ensures Strip(s, cs) == TrimEnd(TrimStart(s, cs), cs)
    decreases |s|
  {
    if s != [] && s[0] in cs {
      StripIsTrimBoth(s[1..], cs);
    } else if s != [] && s[|s| - 1] in cs {
      var t := s[..|s| - 1];
      StripIsTrimBoth(t, cs);
      assert t != [] ==> t[0] == s[0];
    }
  }

  /** A character of cs appended at the end is stripped away again. */
  lemma {:induction false} StripDropsTrailing(s: string, c: char, cs: set<char>)
    requires c in cs
    ensures Strip(s + [c], cs) == Strip(s, cs)
    decreases |s|
  {
    var u := s + [c];
    if s != [] && s[0] in cs {
      assert u[1..] == s[1..] + [c];
      StripDropsTrailing(s[1..], c, cs);
    } else {
      assert u[..|u| - 1] == s;
    }
  }

  /** Stripping twice removes nothing more. */
  lemma StripIdempotent(s: string, cs: set<char>)
    ensures Strip(Strip(s, cs), cs) == Strip(s, cs)
  {
  }

  /** How many characters at the front of s belong to cs. */
  function Leading(s: string, cs: set<char>): (n: nat)
    ensures n <= |s|
    ensures forall k :: 0 <= k < n ==> s[k] in cs
    ensures n < |s| ==> s[n] !in cs
  {
    if s != [] && s[0] in cs then 1 + Leading(s[1..], cs) else 0
  }

  /** A slice of s[1..] is the same slice of s, shifted by one. */
  lemma SliceOfTail(s: string, lo: nat, m: nat)
    requires 1 <= lo && lo + m <= |s|
    ensures s[1..][lo - 1..lo - 1 + m] == s[lo..lo + m]
  {
  }

  /** A prefix of s without its last character is a prefix of s. */
  lemma SliceOfInit(s: string, m: nat)
    requires m < |s|
    ensures s[..|s| - 1][..m] == s[0..0 + m]
  {
  }

  /** Stripping never touches a character of the middle: the result is the
      infix of s that starts right after its leading characters of cs.
      (TrimStart and TrimEnd state that what they cut off belongs to cs.) */
  lemma {:induction false} StripIsInfix(s: string, cs: set<char>)
    ensures var lo := Leading(s, cs);
            lo + |Strip(s, cs)| <= |s| && Strip(s, cs) == s[lo..lo + |Strip(s, cs)|]
    decreases |s|
  {
    var r := Strip(s, cs);
    if s != [] && s[0] in cs {
      StripIsInfix(s[1..], cs);
      SliceOfTail(s, Leading(s, cs), |r|);
    } else if s != [] && s[|s| - 1] in cs {
      var t := s[..|s| - 1];
      StripIsInfix(t, cs);
      assert Leading(t, cs) == 0 by {
        assert t == [] || t[0] == s[0];
      }
      SliceOfInit(s, |r|);
    } else {
      assert r == s[0..0 + |r|];
    }
  }

  /** How many times c occurs in s. */
  function CountChar(s: string, c: char): (n: nat)
    ensures n > 0 <==> c in s
  {
    if s == [] then 0 else (if s[0] == c then 1 else 0) + CountChar(s[1..], c)
  }

  /** The index of the first c in s, or |s| when there is none. */
  function IndexOf(s: string, c: char): (i: nat)
    ensures i <= |s|
    ensures i < |s| ==> s[i] == c
    ensures i == |s| ==> c !in s
    ensures forall k :: 0 <= k < i ==> s[k] != c
  {
    if s == [] then 0 else if s[0] == c then 0 else 1 + IndexOf(s[1..], c)
  }

  /** What follows the first c in s; empty when there is none. */
  function After(s: string, c: char): string {
    if s == [] then [] else if s[0] == c then s[1..] else After(s[1..], c)
  }

  /** After is the slice that starts right past the first c. */
  lemma {:induction false} AfterFirst(s: string, c: char)
    requires c in s
    ensures After(s, c) == s[IndexOf(s, c) + 1..]
    decreases |s|
  {
    if s[0] != c {
      assert c in s[1..] by {
        var k :| 0 <= k < |s| && s[k] == c;
        assert s[1..][k - 1] == c;
      }
      AfterFirst(s[1..], c);
      assert s[1..][IndexOf(s[1..], c) + 1..] == s[IndexOf(s, c) + 1..];
    }
  }

  /** Counting distributes over concatenation. */
  lemma {:induction false} CountCharAppend(a: string, b: string, c: char)
    ensures CountChar(a + b, c) == CountChar(a, c) + CountChar(b, c)
    decreases |a|
  {
    if a != [] {
      assert (a + b)[1..] == a[1..] + b;
      CountCharAppend(a[1..], b, c);
    } else {
      assert a + b == b;
    }
  }

  /** sep.join(parts) for a one-character separator: it starts with the
      first part, and when no part holds the separator it holds exactly one
      separator between each two consecutive parts. */
  function Join(parts: seq<string>, sep: char): (r: string)
    requires |parts| >= 1
    ensures parts[0] <= r
    ensures (forall k :: 0 <= k < |parts| ==> sep !in parts[k]) ==> CountChar(r, sep) == |parts| - 1
  {
    if |parts| == 1 then parts[0]
    else
      var tail := Join(parts[1..], sep);
      CountCharAppend(parts[0] + [sep], tail, sep);
      CountCharAppend(parts[0], [sep], sep);
      parts[0] + [sep] + tail
  }

  /** s.split(sep) for a one-character separator: one more part than there
      are separators, no part holds a separator, and joining the parts
      gives back s. */
  function Split(s: string, sep: char): (parts: seq<string>)
    ensures |parts| == CountChar(s, sep) + 1
    ensures forall k :: 0 <= k < |parts| ==> sep !in parts[k]
    ensures Join(parts, sep) == s
  {
    if s == [] then [[]]
    else
      var tail := Split(s[1..], sep);
      if s[0] == sep then
        assert ([[]] + tail)[1..] == tail;
        [[]] + tail
      else
        var parts := [[s[0]] + tail[0]] + tail[1..];
        assert parts[1..] == tail[1..];
        assert |tail| > 1 ==> Join(tail, sep) == tail[0] + [sep] + Join(tail[1..], sep);
        parts
  }
}
