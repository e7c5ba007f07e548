/** The string operations the parser applies to each line: `str.strip()` and
    `str.split(';')`, with `Join` as the inverse of `Split`. */
module Text {

  /** Python's `str.isspace()`: the characters `str.strip()` removes. */
  predicate IsSpace(c: char) {
    var n := c as int;
    n == 0x20 || 0x09 <= n <= 0x0D || 0x1C <= n <= 0x1F || n == 0x85 || n == 0xA0
    || n == 0x1680 || 0x2000 <= n <= 0x200A || n == 0x2028 || n == 0x2029
    || n == 0x202F || n == 0x205F || n == 0x3000
  }

  /** `str.isdigit()` restricted to ASCII. */
  predicate IsDigit(c: char) {
    '0' <= c <= '9'
  }

  /** Every character of `s` is one `space` accepts. */
  predicate AllOf(space: char -> bool, s: string) {
    forall i :: 0 <= i < |s| ==> space(s[i])
  }

  function TrimStart(space: char -> bool, s: string): string {
    if |s| > 0 && space(s[0]) then TrimStart(space, s[1..]) else s
  }

  function TrimEnd(space: char -> bool, s: string): string {
    if |s| > 0 && space(s[|s| - 1]) then TrimEnd(space, s[..|s| - 1]) else s
  }

  /** `s` without the run of characters `space` accepts at either end;
      `Strip(IsSpace, s)` is `s.strip()` with no argument. */
  function Strip(space: char -> bool, s: string): string {
    TrimEnd(space, TrimStart(space, s))
  }

  lemma {:induction false} TrimStartBounds(space: char -> bool, s: string)
    ensures |TrimStart(space, s)| <= |s| && TrimStart(space, s) == s[|s| - |TrimStart(space, s)|..]
    ensures AllOf(space, s[..|s| - |TrimStart(space, s)|])
    ensures TrimStart(space, s) == [] || !space(TrimStart(space, s)[0])
  {
    if |s| > 0 && space(s[0]) {
      TrimStartBounds(space, s[1..]);
      var k := |s| - |TrimStart(space, s)|;
      assert s[1..][k - 1..] == s[k..];
      assert forall i :: 1 <= i < k ==> s[..k][i] == s[1..][..k - 1][i - 1];
    }
  }

  lemma {:induction false} TrimEndBounds(space: char -> bool, s: string)
    ensures |TrimEnd(space, s)| <= |s| && TrimEnd(space, s) == s[..|TrimEnd(space, s)|]
    ensures AllOf(space, s[|TrimEnd(space, s)|..])
    ensures TrimEnd(space, s) == [] || !space(TrimEnd(space, s)[|TrimEnd(space, s)| - 1])
  {
    if |s| > 0 && space(s[|s| - 1]) {
      var p := s[..|s| - 1];
      TrimEndBounds(space, p);
      var k := |TrimEnd(space, s)|;
      assert p[..k] == s[..k];
      assert s[k..] == p[k..] + [s[|s| - 1]];
      forall i | k <= i < |s| ensures space(s[i]) {
        if i < |s| - 1 {
          assert s[i] == p[k..][i - k];
        }
      }
    }
  }

  /** `Strip(space, s)` is the slice `s[i..j]` left after removing the
      whitespace run at either end: everything cut off is whitespace and,
      unless nothing is left, both ends of what is left are not. */
  lemma StripBounds(space: char -> bool, s: string) returns (i: nat, j: nat)
    ensures i <= j <= |s| && Strip(space, s) == s[i..j]
    ensures AllOf(space, s[..i]) && AllOf(space, s[j..])
    ensures i < j ==> !space(s[i]) && !space(s[j - 1])
  {
    var t := TrimStart(space, s);
    TrimStartBounds(space, s);
    i := |s| - |t|;
    assert t == s[i..];
    var r := TrimEnd(space, t);
    TrimEndBounds(space, t);
    j := i + |r|;
    assert r == t[..|r|];
    assert t[..|r|] == s[i..j];
    assert AllOf(space, t[|r|..]);
    assert t[|r|..] == s[j..];
    if i < j {
      assert s[i] == r[0] && s[j - 1] == r[|r| - 1];
    }
  }

  /** Stripping twice is stripping once. */
  lemma StripIdempotent(space: char -> bool, s: string)
    ensures Strip(space, Strip(space, s)) == Strip(space, s)
  {
    var i, j := StripBounds(space, s);
    var r := Strip(space, s);
    if r != [] {
      assert !space(r[0]) && !space(r[|r| - 1]);
    }
  }

  /** Index of the first `c` in `s`, or `|s|` when there is none. */
  function IndexOf(s: string, c: char): (k: nat)
    ensures k <= |s| && c !in s[..k] && (k < |s| ==> s[k] == c)
  {
    if s == [] then 0
    else if s[0] == c then 0
    else 1 + IndexOf(s[1..], c)
  }

  /** The first `c` in `a + [c] + b` is the one after `a` when `a` has none. */
  lemma {:induction false} IndexOfAfter(a: string, c: char, b: string)
    requires c !in a
    ensures IndexOf(a + [c] + b, c) == |a|
  {
    if a != [] {
      assert (a + [c] + b)[1..] == a[1..] + [c] + b;
      IndexOfAfter(a[1..], c, b);
    }
  }

  /** `s.split(sep)` for a one-character separator: always at least one
      token, and no token holds the separator. */
  function Split(s: string, sep: char): (r: seq<string>)
    ensures |r| >= 1
    ensures forall i :: 0 <= i < |r| ==> sep !in r[i]
    decreases |s|
  {
    var k := IndexOf(s, sep);
    if k == |s| then [s] else [s[..k]] + Split(s[k + 1..], sep)
  }

  /** `sep.join(ts)`. */
  function Join(ts: seq<string>, sep: char): string {
    if |ts| == 0 then ""
    else if |ts| == 1 then ts[0]
    else ts[0] + [sep] + Join(ts[1..], sep)
  }

  /** Number of occurrences of `c` in `s`. */
  function Count(s: string, c: char): nat {
    if s == [] then 0 else (if s[0] == c then 1 else 0) + Count(s[1..], c)
  }

  lemma {:induction false} CountSplit(s: string, c: char, k: nat)
    requires k <= |s|
    ensures Count(s, c) == Count(s[..k], c) + Count(s[k..], c)
  {
    if k > 0 {
      CountSplit(s[1..], c, k - 1);
      assert s[1..][..k - 1] == s[..k][1..];
      assert s[1..][k - 1..] == s[k..];
    }
  }

  lemma {:induction false} CountAbsent(s: string, c: char)
    requires c !in s
    ensures Count(s, c) == 0
  {
    if s != [] {
      CountAbsent(s[1..], c);
    }
  }

  /** Splitting yields one token more than there are separators. */
  lemma {:induction false} SplitCount(s: string, sep: char)
    ensures |Split(s, sep)| == Count(s, sep) + 1
    decreases |s|
  {
    var k := IndexOf(s, sep);
    CountSplit(s, sep, k);
    CountAbsent(s[..k], sep);
    if k < |s| {
      SplitCount(s[k + 1..], sep);
      assert s[k..][1..] == s[k + 1..];
    } else {
      assert s[k..] == [];
    }
  }

  /** Joining the tokens back with the separator gives the line again. */
  lemma {:induction false} JoinSplit(s: string, sep: char)
    ensures Join(Split(s, sep), sep) == s
    decreases |s|
  {
    var k := IndexOf(s, sep);
    if k < |s| {
      var ts := Split(s, sep);
      var rest := Split(s[k + 1..], sep);
      assert ts == [s[..k]] + rest;
      assert ts[0] == s[..k] && ts[1..] == rest && |ts| >= 2;
      JoinSplit(s[k + 1..], sep);
      assert Join(ts, sep) == s[..k] + [sep] + s[k + 1..];
      assert s == s[..k] + [sep] + s[k + 1..];
    }
  }

  /** Splitting a join of separator-free tokens gives the tokens back. */
  lemma {:induction false} SplitJoin(ts: seq<string>, sep: char)
    requires |ts| >= 1
    requires forall i :: 0 <= i < |ts| ==> sep !in ts[i]
    ensures Split(Join(ts, sep), sep) == ts
  {
    var s := Join(ts, sep);
    if |ts| == 1 {
      assert IndexOf(s, sep) == |s|;
    } else {
      var rest := Join(ts[1..], sep);
      assert s == ts[0] + [sep] + rest;
      IndexOfAfter(ts[0], sep, rest);
      assert s[|ts[0]| + 1..] == rest;
      assert s[..|ts[0]|] == ts[0];
      SplitJoin(ts[1..], sep);
      assert ts == [ts[0]] + ts[1..];
    }
  }
}
