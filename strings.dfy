/**
 * The few JavaScript string and array operations the generator and the
 * command line rely on: `indexOf`, `startsWith`, `join`, the `||` default on a
 * string that may be undefined, `toLowerCase`, plus the helpers the proofs
 * about the generated text need (counting a character, splitting into lines,
 * substring containment, cutting out the text between a fixed head and tail).
 */
module Strings {
  import opened Wrappers

  /** JavaScript's `indexOf` on an array or string: the first index of `x`, or -1. */
  function IndexOf<T(==)>(s: seq<T>, x: T): (r: int)
    ensures -1 <= r < |s|
    ensures r == -1 <==> x !in s
    ensures 0 <= r ==> s[r] == x && x !in s[..r]
  {
    if s == [] then -1
    else if s[0] == x then 0
    else
      var k := IndexOf(s[1..], x);
      assert s[1..][..if k < 0 then 0 else k] == s[1..if k < 0 then 1 else k + 1];
      if k == -1 then -1 else k + 1
  }

  /** The last index below `e` at which `s` holds `x`, or -1 (`lastIndexOf` on `s[..e]`). */
  function LastIndexBefore<T(==)>(s: seq<T>, x: T, e: nat): (r: int)
    requires e <= |s|
    ensures -1 <= r < e
    ensures 0 <= r ==> s[r] == x
    decreases e
  {
    if e == 0 then -1
    else if s[e - 1] == x then e - 1
    else LastIndexBefore(s, x, e - 1)
  }

  /** Positions `k..e` that do not hold `x` do not move the last index below `e`. */
  lemma {:induction false} LastIndexBeforeSkip<T>(s: seq<T>, x: T, e: nat, k: nat)
    requires k <= e <= |s|
    requires forall j :: k <= j < e ==> s[j] != x
    ensures LastIndexBefore(s, x, e) == LastIndexBefore(s, x, k)
    decreases e
  {
    if e > k {
      LastIndexBeforeSkip(s, x, e - 1, k);
    }
  }

  /** Nothing between the last index below `e` and `e` holds `x`. */
  lemma {:induction false} LastIndexBeforeIsLast<T>(s: seq<T>, x: T, e: nat)
    requires e <= |s|
    ensures forall j :: LastIndexBefore(s, x, e) < j < e ==> s[j] != x
    decreases e
  {
    if e > 0 && s[e - 1] != x {
      LastIndexBeforeIsLast(s, x, e - 1);
    }
  }

  /** `s.startsWith(prefix)`. */
  predicate StartsWith(s: string, prefix: string) {
    |prefix| <= |s| && s[..|prefix|] == prefix
  }

  /** JavaScript truthiness of a string that may be undefined: defined and non-empty. */
  predicate Truthy(v: Option<string>) {
    v.Some? && v.value != ""
  }

  /** `v || fallback` for a string that may be undefined. */
  function Or(v: Option<string>, fallback: string): string {
    if Truthy(v) then v.value else fallback
  }

  /** `parts.join(sep)`. */
  function Join(parts: seq<string>, sep: string): string {
    if |parts| == 0 then ""
    else if |parts| == 1 then parts[0]
    else parts[0] + sep + Join(parts[1..], sep)
  }

  /** True when no string in `parts` contains `c`. */
  predicate NoneContains(parts: seq<string>, c: char) {
    forall i :: 0 <= i < |parts| ==> c !in parts[i]
  }

  /** How many times `c` occurs in `s`. */
  function Count(s: string, c: char): nat {
    if s == [] then 0 else (if s[0] == c then 1 else 0) + Count(s[1..], c)
  }

  lemma {:induction false} CountConcat(a: string, b: string, c: char)
    ensures Count(a + b, c) == Count(a, c) + Count(b, c)
  {
    if a == [] {
      assert a + b == b;
    } else {
      assert (a + b)[1..] == a[1..] + b;
      CountConcat(a[1..], b, c);
    }
  }

  lemma {:induction false} CountAbsent(s: string, c: char)
    requires c !in s
    ensures Count(s, c) == 0
  {
    if s != [] {
      assert c !in s[1..] by {
        forall j | 0 <= j < |s[1..]| ensures s[1..][j] != c {
          assert s[1..][j] == s[j + 1];
        }
      }
      CountAbsent(s[1..], c);
    }
  }

  /** Joining parts free of `c` with the separator `[c]` puts exactly |parts| - 1 copies of `c` in the text. */
  lemma {:induction false} JoinCount(parts: seq<string>, c: char)
    requires |parts| > 0 && NoneContains(parts, c)
    ensures Count(Join(parts, [c]), c) == |parts| - 1
  {
    CountAbsent(parts[0], c);
    if |parts| > 1 {
      JoinCount(parts[1..], c);
      CountConcat(parts[0] + [c], Join(parts[1..], [c]), c);
      CountConcat(parts[0], [c], c);
      assert Count([c], c) == 1 by {
        assert [c][1..] == [];
      }
    }
  }

  /** A join of parts and a separator that all avoid `c` avoids `c`. */
  lemma {:induction false} JoinAvoids(parts: seq<string>, sep: string, c: char)
    requires NoneContains(parts, c) && c !in sep
    ensures c !in Join(parts, sep)
  {
    if |parts| > 1 {
      assert NoneContains(parts[1..], c) by {
        forall i | 0 <= i < |parts[1..]| ensures c !in parts[1..][i] {
          assert parts[1..][i] == parts[i + 1];
        }
      }
      JoinAvoids(parts[1..], sep, c);
      assert c !in parts[0];
    }
  }

  /**
   * Cuts a text into the lines it is made of: each line ends at a newline,
   * and a last fragment without one is a line of its own.
   */
  function SplitLines(s: string): seq<string>
    decreases |s|
  {
    if s == [] then []
    else
      var k := IndexOf(s, '\n');
      if k < 0 then [s] else [s[..k]] + SplitLines(s[k + 1..])
  }

  lemma IndexOfAfter(a: string, rest: string)
    requires '\n' !in a
    ensures IndexOf(a + "\n" + rest, '\n') == |a|
  {
    var s := a + "\n" + rest;
    assert s[|a|] == '\n';
    assert s[..|a|] == a;
  }

  lemma SplitFirstLine(a: string, rest: string)
    requires '\n' !in a
    ensures SplitLines(a + "\n" + rest) == [a] + SplitLines(rest)
  {
    var s := a + "\n" + rest;
    IndexOfAfter(a, rest);
    assert s[..|a|] == a;
    assert s[|a| + 1..] == rest;
  }

  /** Lines joined with newlines, plus a final newline, split back into the same lines. */
  lemma {:induction false} SplitJoinedLines(parts: seq<string>)
    requires |parts| > 0 && NoneContains(parts, '\n')
    ensures SplitLines(Join(parts, "\n") + "\n") == parts
  {
    if |parts| == 1 {
      assert Join(parts, "\n") + "\n" == parts[0] + "\n" + "";
      SplitFirstLine(parts[0], "");
    } else {
      var tail := parts[1..];
      var rest := Join(tail, "\n") + "\n";
      assert SplitLines(rest) == tail by {
        SplitJoinedLines(tail);
      }
      assert SplitLines(Join(parts, "\n") + "\n") == [parts[0]] + tail by {
        assert Join(parts, "\n") + "\n" == parts[0] + "\n" + rest;
        SplitFirstLine(parts[0], rest);
      }
      assert parts == [parts[0]] + tail;
    }
  }

  /** `needle` occurs in `hay` starting at index `i`. */
  predicate IsAt(hay: string, needle: string, i: int) {
    0 <= i && i + |needle| <= |hay| && hay[i..i + |needle|] == needle
  }

  /** `hay.includes(needle)`. */
  ghost predicate Contains(hay: string, needle: string) {
    exists i :: IsAt(hay, needle, i)
  }

  lemma ContainsMiddle(a: string, b: string, c: string)
    ensures Contains(a + b + c, b)
  {
    assert (a + b + c)[|a|..|a| + |b|] == b;
    assert IsAt(a + b + c, b, |a|);
  }

  lemma ContainsTrans(x: string, y: string, z: string)
    requires Contains(x, y) && Contains(y, z)
    ensures Contains(x, z)
  {
    var i :| IsAt(x, y, i);
    var j :| IsAt(y, z, j);
    forall t | 0 <= t < |z| ensures x[i + j + t] == z[t] {
      assert z[t] == y[j + t] == x[i + j + t];
    }
    assert x[i + j..i + j + |z|] == z;
    assert IsAt(x, z, i + j);
  }

  lemma ContainsExtend(x: string, y: string, pre: string, post: string)
    requires Contains(x, y)
    ensures Contains(pre + x + post, y)
  {
    ContainsMiddle(pre, x, post);
    ContainsTrans(pre + x + post, x, y);
  }

  /** Each of three space-separated parts occurs in the whole. */
  lemma ContainsSpaced(a: string, b: string, c: string)
    ensures Contains(a + " " + b + " " + c, a) && Contains(a + " " + b + " " + c, b) && Contains(a + " " + b + " " + c, c)
  {
    var x := a + " " + b + " " + c;
    ContainsMiddle("", a, " " + b + " " + c);
    assert "" + a + (" " + b + " " + c) == x;
    ContainsMiddle(a + " ", b, " " + c);
    assert a + " " + b + (" " + c) == x;
    ContainsMiddle(a + " " + b + " ", c, "");
    assert x + "" == x;
  }

  /** Every part of a joined text occurs in it. */
  lemma {:induction false} ContainsJoinPart(parts: seq<string>, sep: string, k: int)
    requires 0 <= k < |parts|
    ensures Contains(Join(parts, sep), parts[k])
  {
    if |parts| == 1 {
      ContainsMiddle("", parts[0], "");
      assert "" + parts[0] + "" == parts[0];
    } else if k == 0 {
      ContainsMiddle("", parts[0], sep + Join(parts[1..], sep));
      assert "" + parts[0] + (sep + Join(parts[1..], sep)) == Join(parts, sep);
    } else {
      ContainsJoinPart(parts[1..], sep, k - 1);
      ContainsExtend(Join(parts[1..], sep), parts[k], parts[0] + sep, "");
      assert parts[0] + sep + Join(parts[1..], sep) + "" == Join(parts, sep);
    }
  }

  /** The text strictly between a fixed `head` and `tail` that frame `s`, if they do. */
  function Between(s: string, head: string, tail: string): (r: Option<string>)
    ensures r.Some? ==> s == head + r.value + tail
  {
    if |head| + |tail| <= |s| && s[..|head|] == head && s[|s| - |tail|..] == tail
    then
      var mid := s[|head|..|s| - |tail|];
      assert s == s[..|head|] + mid + s[|s| - |tail|..];
      Some(mid)
    else None
  }

  lemma BetweenRoundTrip(head: string, mid: string, tail: string)
    ensures Between(head + mid + tail, head, tail) == Some(mid)
  {
    var s := head + mid + tail;
    assert s[..|head|] == head;
    assert s[|s| - |tail|..] == tail;
    assert s[|head|..|s| - |tail|] == mid;
  }

  /** ASCII lower case of one character. */
  function LowerChar(c: char): char {
    if 'A' <= c <= 'Z' then (c as int + 32) as char else c
  }

  /**
   * `s.toLowerCase()` restricted to ASCII letters: the result has no upper-case
   * letter left, each upper-case letter becomes the one 32 code points above
   * it, and every other character is kept where it was.
   */
  function Lower(s: string): (r: string)
    ensures |r| == |s|
    ensures forall i :: 0 <= i < |r| ==> !('A' <= r[i] <= 'Z')
    ensures forall i :: 0 <= i < |s| && 'A' <= s[i] <= 'Z' ==> r[i] as int == s[i] as int + 32
    ensures forall i :: 0 <= i < |s| && !('A' <= s[i] <= 'Z') ==> r[i] == s[i]
  {
    seq(|s|, i requires 0 <= i < |s| => LowerChar(s[i]))
  }

  /** Lower-casing twice is lower-casing once. */
  lemma LowerIdempotent(s: string)
    ensures Lower(Lower(s)) == Lower(s)
  {
  }

  /** The decimal digits of `n`. */
  function DecimalText(n: nat): string
  {
    if n < 10 then ["0123456789"[n]] else DecimalText(n / 10) + ["0123456789"[n % 10]]
  }

  /** No element of `s` occurs twice. */
  predicate Distinct<T(==)>(s: seq<T>) {
    forall i, j :: 0 <= i < j < |s| ==> s[i] != s[j]
  }

  /** A sequence without repetitions has as many distinct elements as it is long. */
  lemma {:induction false} DistinctCardinality<T>(s: seq<T>)
    requires Distinct(s)
    ensures |set x | x in s| == |s|
  {
    if s != [] {
      DistinctCardinality(s[1..]);
      var tail := set x | x in s[1..];
      assert (set x | x in s) == {s[0]} + tail;
      assert s[0] !in tail by {
        forall j | 0 <= j < |s[1..]| ensures s[1..][j] != s[0] {
          assert s[1..][j] == s[j + 1];
        }
      }
    }
  }
}
