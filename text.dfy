/** The Kotlin standard-library string operations the core relies on:
    `trim`, `isBlank`, `removeSuffix`, `split`, `substringBeforeLast`, `take`
    and `replace` of a single character. */
module Text {

  /** Kotlin's `Char.isWhitespace()`: Java's `Character.isWhitespace` or
      `Character.isSpaceChar`, written out as the code points it accepts. */
  predicate IsWhitespace(c: char) {
    var n := c as int;
    (9 <= n <= 13) || (28 <= n <= 32) || n == 0xA0 || n == 0x1680 ||
    (0x2000 <= n <= 0x200A) || n == 0x2028 || n == 0x2029 || n == 0x202F ||
    n == 0x205F || n == 0x3000
  }

  /** Kotlin's `isBlank()`: empty or whitespace only. */
  predicate IsBlank(s: string) {
    forall i :: 0 <= i < |s| ==> IsWhitespace(s[i])
  }

  /** Leading whitespace removed. */
  function TrimStart(s: string): (r: string)
    ensures |r| <= |s|
    ensures r == [] || !IsWhitespace(r[0])
  {
    if s != [] && IsWhitespace(s[0]) then TrimStart(s[1..]) else s
  }

  /** What `TrimStart` cuts off is a blank prefix. */
  lemma {:induction false} TrimStartCut(s: string)
    ensures TrimStart(s) == s[|s| - |TrimStart(s)|..]
    ensures IsBlank(s[..|s| - |TrimStart(s)|])
  {
    if s != [] && IsWhitespace(s[0]) {
      var r := TrimStart(s[1..]);
      TrimStartCut(s[1..]);
      assert s[..|s| - |r|] == [s[0]] + s[1..][..|s| - 1 - |r|];
    }
  }

  /** Trailing whitespace removed. */
  function TrimEnd(s: string): (r: string)
    ensures |r| <= |s|
    ensures r == [] || !IsWhitespace(r[|r| - 1])
  {
    if s != [] && IsWhitespace(s[|s| - 1]) then TrimEnd(s[..|s| - 1]) else s
  }

  /** What `TrimEnd` cuts off is a blank suffix. */
  lemma {:induction false} TrimEndCut(s: string)
    ensures TrimEnd(s) == s[..|TrimEnd(s)|]
    ensures IsBlank(s[|TrimEnd(s)|..])
  {
    if s != [] && IsWhitespace(s[|s| - 1]) {
      var r := TrimEnd(s[..|s| - 1]);
      TrimEndCut(s[..|s| - 1]);
      assert s[|r|..] == s[..|s| - 1][|r|..] + [s[|s| - 1]];
    }
  }

  /** Kotlin's `trim()`: whitespace removed from both ends. */
  function Trim(s: string): string {
    TrimEnd(TrimStart(s))
  }

  /** No whitespace at either end of `s`. */
  predicate IsTrimmed(s: string) {
    s == [] || (!IsWhitespace(s[0]) && !IsWhitespace(s[|s| - 1]))
  }

  /** Where `Trim(s)` sits in `s`: between a blank prefix and a blank suffix. */
  lemma {:induction false} TrimCut(s: string) returns (i: nat, j: nat)
    ensures i <= j <= |s| && Trim(s) == s[i..j]
    ensures IsBlank(s[..i]) && IsBlank(s[j..])
  {
    var t := TrimStart(s);
    var r := TrimEnd(t);
    TrimStartCut(s);
    TrimEndCut(t);
    i, j := |s| - |t|, |s| - |t| + |r|;
    assert r == s[i..j] by {
      assert t == s[i..] && r == t[..|r|];
    }
    assert s[j..] == t[|r|..];
  }

  /** `Trim(s)` is `s` with a blank prefix and a blank suffix cut off, and it
      has no whitespace at either end. */
  lemma {:induction false} TrimSpec(s: string)
    ensures IsTrimmed(Trim(s))
    ensures exists i, j :: 0 <= i <= j <= |s| && Trim(s) == s[i..j] && IsBlank(s[..i]) && IsBlank(s[j..])
  {
    var t := TrimStart(s);
    var r := TrimEnd(t);
    TrimEndCut(t);
    if r != [] {
      assert r[0] == t[0];
    }
    var i, j := TrimCut(s);
  }

  /** A string with no whitespace at its ends is its own trim. */
  lemma {:induction false} TrimOfTrimmed(s: string)
    requires IsTrimmed(s)
    ensures Trim(s) == s
  {
  }

  /** Trimming twice is trimming once. */
  lemma {:induction false} TrimIdempotent(s: string)
    ensures Trim(Trim(s)) == Trim(s)
  {
    TrimSpec(s);
    TrimOfTrimmed(Trim(s));
  }

  /** `isBlank()` holds exactly when trimming leaves nothing. */
  lemma {:induction false} BlankIffTrimEmpty(s: string)
    ensures IsBlank(s) <==> Trim(s) == []
  {
    var t := TrimStart(s);
    TrimStartCut(s);
    TrimEndCut(t);
    if Trim(s) == [] {
      assert t == [] by {
        assert IsBlank(t[0..]);
      }
      assert s[..|s|] == s;
    }
  }

  /** Kotlin's `endsWith`. */
  predicate EndsWith(s: string, suffix: string) {
    |suffix| <= |s| && s[|s| - |suffix|..] == suffix
  }

  /** Kotlin's `removeSuffix`: drops one copy of `suffix` if `s` ends with it. */
  function RemoveSuffix(s: string, suffix: string): (r: string)
    ensures EndsWith(s, suffix) ==> r + suffix == s
    ensures !EndsWith(s, suffix) ==> r == s
  {
    if EndsWith(s, suffix) then s[..|s| - |suffix|] else s
  }

  /** Removing a suffix just appended gives the original back. */
  lemma {:induction false} RemoveAppendedSuffix(s: string, suffix: string)
    ensures RemoveSuffix(s + suffix, suffix) == s
  {
    assert (s + suffix)[|s|..] == suffix;
    assert (s + suffix)[..|s|] == s;
  }

  /** Removing a suffix adds no character. */
  lemma {:induction false} RemoveSuffixKeepsOut(s: string, suffix: string, c: char)
    requires c !in s
    ensures c !in RemoveSuffix(s, suffix)
  {
    if EndsWith(s, suffix) {
      var r := RemoveSuffix(s, suffix);
      assert forall k :: 0 <= k < |r| ==> r[k] == s[k];
    }
  }

  /** Kotlin's `take(n)`: the first `n` characters, or all of them. */
  function Take(s: string, n: nat): (r: string)
    ensures |r| == if |s| < n then |s| else n
    ensures r <= s
  {
    if |s| <= n then s else s[..n]
  }

  /** Index of the first `c` in `s`, when there is one. */
  function IndexOf(s: string, c: char): (i: nat)
    requires c in s
    ensures i < |s| && s[i] == c && c !in s[..i]
  {
    if s[0] == c then 0 else 1 + IndexOf(s[1..], c)
  }

  /** Index of the last `c` in `s`, when there is one. */
  function LastIndexOf(s: string, c: char): (i: nat)
    requires c in s
    ensures i < |s| && s[i] == c && c !in s[i + 1..]
  {
    if s[|s| - 1] == c then |s| - 1
    else
      assert c in s[..|s| - 1] by {
        var k :| 0 <= k < |s| && s[k] == c;
        assert s[..|s| - 1][k] == c;
      }
      LastIndexOf(s[..|s| - 1], c)
  }

  /** The parts joined back together with `sep` between them. */
  function Join(parts: seq<string>, sep: char): string
    requires parts != []
  {
    if |parts| == 1 then parts[0] else parts[0] + [sep] + Join(parts[1..], sep)
  }

  /** Kotlin's `split(sep)`: every piece between separators, empty pieces
      included (so `""` splits to `[""]`). */
  function Split(s: string, sep: char): (parts: seq<string>)
    ensures parts != []
    ensures forall i :: 0 <= i < |parts| ==> sep !in parts[i]
    ensures Join(parts, sep) == s
    decreases |s|
  {
    if sep !in s then [s]
    else
      var i := IndexOf(s, sep);
      var rest := Split(s[i + 1..], sep);
      assert s == s[..i] + [sep] + s[i + 1..];
      [s[..i]] + rest
  }

  /** Splitting undoes joining: the two are inverse on separator-free parts. */
  lemma {:induction false} SplitJoin(parts: seq<string>, sep: char)
    requires parts != []
    requires forall i :: 0 <= i < |parts| ==> sep !in parts[i]
    ensures Split(Join(parts, sep), sep) == parts
  {
    if |parts| > 1 {
      var s := Join(parts, sep);
      var rest := Join(parts[1..], sep);
      assert s == parts[0] + [sep] + rest;
      assert sep in s by { assert s[|parts[0]|] == sep; }
      assert IndexOf(s, sep) == |parts[0]| by {
        assert s[..|parts[0]|] == parts[0];
      }
      assert s[|parts[0]| + 1..] == rest;
      SplitJoin(parts[1..], sep);
      assert s[..|parts[0]|] == parts[0];
    }
  }

  /** Joining one more part adds a separator and that part. */
  lemma {:induction false} JoinAppend(parts: seq<string>, last: string, sep: char)
    requires parts != []
    ensures Join(parts + [last], sep) == Join(parts, sep) + [sep] + last
    decreases |parts|
  {
    if |parts| > 1 {
      assert (parts + [last])[1..] == parts[1..] + [last];
      JoinAppend(parts[1..], last, sep);
    }
  }

  /** Splitting `s`, a separator and a separator-free `last` gives the parts
      of `s` and then `last`. */
  lemma {:induction false} SplitAppend(s: string, last: string, sep: char)
    requires sep !in last
    ensures Split(s + [sep] + last, sep) == Split(s, sep) + [last]
  {
    var parts := Split(s, sep) + [last];
    JoinAppend(Split(s, sep), last, sep);
    SplitJoin(parts, sep);
  }

  /** Kotlin's `substringBeforeLast(c, missing)`. */
  function SubstringBeforeLast(s: string, c: char, missing: string): (r: string)
    ensures c in s ==> r + [c] <= s && c !in s[|r| + 1..]
    ensures c !in s ==> r == missing
  {
    if c in s then s[..LastIndexOf(s, c)] else missing
  }

  /** Cutting at the last `c` of `s + [c] + tail`, when the tail holds no
      `c`, gives `s` back. */
  lemma {:induction false} BeforeLastAppended(s: string, c: char, tail: string, missing: string)
    requires c !in tail
    ensures SubstringBeforeLast(s + [c] + tail, c, missing) == s
  {
    var t := s + [c] + tail;
    assert t[|s|] == c;
    var i := LastIndexOf(t, c);
    forall k | i < k < |t| ensures t[k] != c {
      assert t[i + 1..][k - i - 1] == t[k];
    }
    forall k | |s| < k < |t| ensures t[k] != c {
      assert t[k] == tail[k - |s| - 1];
    }
    assert t[..|s|] == s;
  }

  /** Kotlin's `replace(c.toString(), "")`: every `c` removed. */
  function RemoveAll(s: string, c: char): (r: string)
    ensures c !in r
    ensures c !in s ==> r == s
    ensures |r| <= |s|
  {
    if s == [] then []
    else if s[0] == c then RemoveAll(s[1..], c)
    else [s[0]] + RemoveAll(s[1..], c)
  }

  /** Removing `c` from two texts put together removes it from each, so
      every other character is kept, in order. */
  lemma {:induction false} RemoveAllAppend(a: string, b: string, c: char)
    ensures RemoveAll(a + b, c) == RemoveAll(a, c) + RemoveAll(b, c)
    decreases |a|
  {
    if a == [] {
      assert a + b == b;
    } else {
      assert (a + b)[0] == a[0] && (a + b)[1..] == a[1..] + b;
      RemoveAllAppend(a[1..], b, c);
      if a[0] != c {
        assert [a[0]] + RemoveAll(a[1..], c) + RemoveAll(b, c) == [a[0]] + (RemoveAll(a[1..], c) + RemoveAll(b, c));
      }
    }
  }

  /** The pieces of a text, put back together with nothing between them. */
  function Concat(parts: seq<string>): string {
    if parts == [] then [] else parts[0] + Concat(parts[1..])
  }

  /** Removing the separator from pieces joined by it gives the pieces put
      together: line breaks inserted into a text are undone exactly. */
  lemma {:induction false} RemoveAllJoin(parts: seq<string>, c: char)
    requires parts != [] && forall i :: 0 <= i < |parts| ==> c !in parts[i]
    ensures RemoveAll(Join(parts, c), c) == Concat(parts)
    decreases |parts|
  {
    if |parts| == 1 {
      assert Concat(parts[1..]) == [];
      assert parts[0] + [] == parts[0];
    } else {
      var rest := Join(parts[1..], c);
      RemoveAllAppend(parts[0], [c] + rest, c);
      RemoveAllAppend([c], rest, c);
      assert RemoveAll([c], c) == [];
      assert parts[0] + [c] + rest == parts[0] + ([c] + rest);
      RemoveAllJoin(parts[1..], c);
    }
  }
}
