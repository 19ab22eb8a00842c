/** Models of the Python built-ins the service layer relies on: `str.strip`,
    `str.split` and `re.split` over a set of single characters, `str.join`,
    `str.find`/`str.rfind`, `in` on strings, `str.startswith`, slicing and
    `str()` of integers. */
module PyBuiltins {

  /** Whitespace as Python's `str.isspace` defines it, i.e. what `str.strip()` removes. */
  const Whitespace: set<char> := {
    ' ', '\t', '\n', '\U{0B}', '\U{0C}', '\r', '\U{1C}', '\U{1D}', '\U{1E}', '\U{1F}',
    '\U{85}', '\U{A0}', '\U{1680}', '\U{2000}', '\U{2001}', '\U{2002}', '\U{2003}',
    '\U{2004}', '\U{2005}', '\U{2006}', '\U{2007}', '\U{2008}', '\U{2009}', '\U{200A}',
    '\U{2028}', '\U{2029}', '\U{202F}', '\U{205F}', '\U{3000}' }

  predicate IsSpace(c: char) {
    c in Whitespace
  }

  predicate AllSpace(s: string) {
    forall k :: 0 <= k < |s| ==> IsSpace(s[k])
  }

  /** A string `strip()` leaves unchanged: no whitespace at either end. */
  predicate IsStripped(s: string) {
    s == [] || (!IsSpace(s[0]) && !IsSpace(s[|s| - 1]))
  }

  function TrimLeft(s: string): (r: string)
    ensures |r| <= |s|
    ensures r != [] ==> !IsSpace(r[0])
  {
    if s != [] && IsSpace(s[0]) then TrimLeft(s[1..]) else s
  }

  function TrimRight(s: string): (r: string)
    ensures |r| <= |s|
    ensures r != [] ==> !IsSpace(r[|r| - 1]) && r[0] == s[0]
  {
    if s != [] && IsSpace(s[|s| - 1]) then TrimRight(s[..|s| - 1]) else s
  }

  /** `TrimLeft` cuts off a whitespace prefix. */
  lemma {:induction false} TrimLeftSpec(s: string)
    ensures var r := TrimLeft(s); r == s[|s| - |r|..] && AllSpace(s[..|s| - |r|])
  {
    if s != [] && IsSpace(s[0]) {
      TrimLeftSpec(s[1..]);
      var r := TrimLeft(s);
      assert s[1..][|s| - 1 - |r|..] == s[|s| - |r|..];
      assert forall k :: 1 <= k < |s| - |r| ==> s[k] == s[1..][..|s| - 1 - |r|][k - 1];
    }
  }

  /** `TrimRight` cuts off a whitespace suffix. */
  lemma {:induction false} TrimRightSpec(s: string)
    ensures var r := TrimRight(s); r == s[..|r|] && AllSpace(s[|r|..])
  {
    if s != [] && IsSpace(s[|s| - 1]) {
      var s' := s[..|s| - 1];
      TrimRightSpec(s');
      var r := TrimRight(s);
      assert s'[..|r|] == s[..|r|];
      assert forall k :: |r| <= k < |s| - 1 ==> s[k] == s'[|r|..][k - |r|];
    }
  }

  /** How many leading whitespace characters `strip()` removes. */
  function StripStart(s: string): (i: nat)
    ensures i <= |s|
  {
    |s| - |TrimLeft(s)|
  }

  /** `s.strip()`: what is left of `s` once whitespace is cut off both ends. */
  function Strip(s: string): (r: string)
    ensures |r| <= |s|
    ensures IsStripped(r)
  {
    TrimRight(TrimLeft(s))
  }

  /** What `strip()` cuts off is whitespace, and what it leaves is the part of `s` that
      starts at `StripStart(s)`; nothing is left exactly when `s` is all whitespace. */
  lemma StripSpec(s: string)
    ensures var r := Strip(s); var i := StripStart(s);
      && i + |r| <= |s| && s[i..i + |r|] == r
      && AllSpace(s[..i]) && AllSpace(s[i + |r|..])
      && (r == [] <==> AllSpace(s))
  {
    var l := TrimLeft(s);
    var r := TrimRight(l);
    var i := |s| - |l|;
    TrimLeftSpec(s);
    TrimRightSpec(l);
    assert l == s[i..];
    assert s[i..i + |r|] == l[..|r|];
    assert s[i + |r|..] == l[|r|..];
    if r == [] {
      assert l[0..] == l;
      SpaceAtPrefixAndSuffix(s, l, i);
    } else {
      assert s[i] == r[0];
      NotAllSpace(s, i);
    }
  }

  lemma SpaceAtPrefixAndSuffix(s: string, l: string, i: nat)
    requires i <= |s| && l == s[i..] && AllSpace(l) && AllSpace(s[..i])
    ensures AllSpace(s)
  {
    assert s == s[..i] + l;
    SpaceConcat(s[..i], l);
  }

  lemma NotAllSpace(s: string, i: nat)
    requires i < |s| && !IsSpace(s[i])
    ensures !AllSpace(s)
  {
  }

  lemma SpaceConcat(a: string, b: string)
    requires AllSpace(a) && AllSpace(b)
    ensures AllSpace(a + b)
  {
    forall k | 0 <= k < |a + b| ensures IsSpace((a + b)[k]) {
      if k < |a| { assert (a + b)[k] == a[k]; } else { assert (a + b)[k] == b[k - |a|]; }
    }
  }

  lemma StripOfStripped(s: string)
    requires IsStripped(s)
    ensures Strip(s) == s
  {
  }

  /** Stripping twice is stripping once. */
  lemma StripIdempotent(s: string)
    ensures Strip(Strip(s)) == Strip(s)
  {
    StripOfStripped(Strip(s));
  }

  predicate NoneOf(s: string, seps: set<char>) {
    forall k :: 0 <= k < |s| ==> s[k] !in seps
  }

  /** The separator characters of `s`, in order. */
  function Separators(s: string, seps: set<char>): (r: string)
    ensures |r| <= |s|
  {
    if s == [] then [] else (if s[0] in seps then [s[0]] else []) + Separators(s[1..], seps)
  }

  /** `re.split('[...]', s)` / `s.split(c)`: the pieces between separator characters,
      including empty pieces. */
  function Split(s: string, seps: set<char>): (r: seq<string>)
    ensures |r| >= 1
  {
    if s == [] then [""]
    else
      var rest := Split(s[1..], seps);
      if s[0] in seps then [""] + rest
      else [[s[0]] + rest[0]] + rest[1..]
  }

  /** Puts the separators back between the pieces. */
  function Interleave(pieces: seq<string>, seps: string): string
    requires |pieces| == |seps| + 1
  {
    if seps == [] then pieces[0] else pieces[0] + [seps[0]] + Interleave(pieces[1..], seps[1..])
  }

  /** No piece holds a separator. */
  lemma {:induction false} SplitNoneOf(s: string, seps: set<char>)
    ensures forall i :: 0 <= i < |Split(s, seps)| ==> NoneOf(Split(s, seps)[i], seps)
  {
    if s != [] {
      SplitNoneOf(s[1..], seps);
      var rest := Split(s[1..], seps);
      if s[0] !in seps {
        var first := [s[0]] + rest[0];
        assert forall k :: 1 <= k < |first| ==> first[k] == rest[0][k - 1];
      }
    }
  }

  /** A string without separators splits into itself alone. */
  lemma {:induction false} SplitOfNoneOf(s: string, seps: set<char>)
    requires NoneOf(s, seps)
    ensures Split(s, seps) == [s]
  {
    if s != [] {
      assert NoneOf(s[1..], seps) by {
        assert forall k :: 0 <= k < |s[1..]| ==> s[1..][k] == s[k + 1];
      }
      SplitOfNoneOf(s[1..], seps);
      assert [s[0]] + s[1..] == s;
    }
  }

  /** There is one more piece than there are separators. */
  lemma {:induction false} SplitCount(s: string, seps: set<char>)
    ensures |Split(s, seps)| == |Separators(s, seps)| + 1
  {
    if s != [] {
      SplitCount(s[1..], seps);
    }
  }

  /** Splitting loses nothing: the pieces and the separators rebuild the input. */
  lemma {:induction false} SplitRoundTrip(s: string, seps: set<char>)
    ensures |Split(s, seps)| == |Separators(s, seps)| + 1
    ensures Interleave(Split(s, seps), Separators(s, seps)) == s
  {
    SplitCount(s, seps);
    if s != [] {
      SplitRoundTrip(s[1..], seps);
      var rest := Split(s[1..], seps);
      var sepsRest := Separators(s[1..], seps);
      if s[0] in seps {
        assert Separators(s, seps) == [s[0]] + sepsRest;
      } else {
        assert Separators(s, seps) == sepsRest;
        if sepsRest == [] {
        } else {
          var pieces := [[s[0]] + rest[0]] + rest[1..];
          assert pieces[1..] == rest[1..];
        }
      }
    }
  }

  /** `sep.join(parts)`. */
  function Join(sep: string, parts: seq<string>): string {
    if parts == [] then ""
    else if |parts| == 1 then parts[0]
    else parts[0] + sep + Join(sep, parts[1..])
  }

  /** What appending `parts` one after another to an empty string gives (a `+=` loop). */
  function Concat(parts: seq<string>): string
    decreases |parts|
  {
    if parts == [] then "" else Concat(parts[..|parts| - 1]) + parts[|parts| - 1]
  }

  /** One more part appends it. */
  lemma ConcatSnoc(parts: seq<string>, i: nat)
    requires i < |parts|
    ensures Concat(parts[..i + 1]) == Concat(parts[..i]) + parts[i]
  {
    assert parts[..i + 1][..i] == parts[..i];
  }

  /** Appending works part by part. */
  lemma {:induction false} ConcatAppend(a: seq<string>, b: seq<string>)
    ensures Concat(a + b) == Concat(a) + Concat(b)
    decreases |b|
  {
    if b == [] {
      assert a + b == a;
    } else {
      var n := |b| - 1;
      assert (a + b)[..|a + b| - 1] == a + b[..n];
      assert (a + b)[|a + b| - 1] == b[n];
      ConcatAppend(a, b[..n]);
    }
  }

  /** Each part occurs in the concatenation. */
  lemma {:induction false} ConcatContains(parts: seq<string>, i: nat)
    requires i < |parts|
    ensures Contains(Concat(parts), parts[i])
    decreases |parts|
  {
    var n := |parts| - 1;
    var front := parts[..n];
    if i == n {
      ContainsSelf(parts[i]);
      ContainsAfter(Concat(front), parts[i], parts[i]);
    } else {
      ConcatContains(front, i);
      ContainsBefore(Concat(front), parts[n], parts[i]);
    }
  }

  /** A concatenation starts with its first part. */
  lemma {:induction false} ConcatStartsWith(parts: seq<string>)
    requires |parts| > 0
    ensures StartsWith(Concat(parts), parts[0])
    decreases |parts|
  {
    var n := |parts| - 1;
    if n == 0 {
      assert Concat(parts[..0]) == "";
      assert Concat(parts) == "" + parts[0];
    } else {
      ConcatStartsWith(parts[..n]);
      var c := Concat(parts[..n]);
      assert (c + parts[n])[..|parts[0]|] == c[..|parts[0]|];
    }
  }

  /** `s.find(c)`: the first index of `c`, or -1. */
  function Find(s: string, c: char): (r: int)
    ensures -1 <= r < |s|
    ensures r == -1 <==> c !in s
    ensures r >= 0 ==> s[r] == c && forall k :: 0 <= k < r ==> s[k] != c
  {
    if s == [] then -1
    else if s[0] == c then 0
    else
      var k := Find(s[1..], c);
      if k == -1 then -1 else k + 1
  }

  /** `s.rfind(c)`: the last index of `c`, or -1. */
  function RFind(s: string, c: char): (r: int)
    ensures -1 <= r < |s|
    ensures r == -1 <==> c !in s
    ensures r >= 0 ==> s[r] == c && forall k :: r < k < |s| ==> s[k] != c
  {
    if s == [] then -1
    else if s[|s| - 1] == c then |s| - 1
    else
      var k := RFind(s[..|s| - 1], c);
      assert k == -1 ==> s == s[..|s| - 1] + [s[|s| - 1]];
      k
  }

  /** `lst[:n]`: a negative `n` counts from the end. */
  function Prefix<T>(xs: seq<T>, n: int): (r: seq<T>)
    ensures |r| <= |xs| && r == xs[..|r|]
    ensures 0 <= n ==> |r| == if n < |xs| then n else |xs|
    ensures n < 0 ==> |r| == if |xs| + n < 0 then 0 else |xs| + n
  {
    if 0 <= n then (if n < |xs| then xs[..n] else xs)
    else if |xs| + n < 0 then []
    else xs[..|xs| + n]
  }

  /** `s.startswith(p)`. */
  predicate StartsWith(s: string, p: string) {
    |p| <= |s| && s[..|p|] == p
  }

  /** `sub in s`. */
  predicate Contains(s: string, sub: string)
    decreases |s|
  {
    StartsWith(s, sub) || (s != [] && Contains(s[1..], sub))
  }

  /** `sub in s` holds exactly when `sub` occurs at some index of `s`. */
  lemma {:induction false} ContainsAt(s: string, sub: string, i: nat)
    requires i + |sub| <= |s| && s[i..i + |sub|] == sub
    ensures Contains(s, sub)
  {
    if i > 0 {
      assert s[1..][i - 1..i - 1 + |sub|] == s[i..i + |sub|];
      ContainsAt(s[1..], sub, i - 1);
    }
  }

  /** A text occurs in any text it begins. */
  lemma ContainsStart(sub: string, rest: string)
    ensures Contains(sub + rest, sub)
  {
    assert (sub + rest)[..|sub|] == sub;
  }

  /** A text that occurs in one part of a concatenation occurs in the whole. */
  lemma ContainsInConcat(a: string, b: string, c: string, sub: string)
    requires Contains(b, sub)
    ensures Contains(a + b + c, sub)
  {
    var i := ContainsWitness(b, sub);
    assert (a + b + c)[|a| + i..|a| + i + |sub|] == b[i..i + |sub|];
    ContainsAt(a + b + c, sub, |a| + i);
  }

  /** A text occurs in itself. */
  lemma ContainsSelf(s: string)
    ensures Contains(s, s)
  {
    assert s[..|s|] == s;
  }

  /** A text that occurs in the second part of a concatenation occurs in the whole. */
  lemma ContainsAfter(a: string, b: string, sub: string)
    requires Contains(b, sub)
    ensures Contains(a + b, sub)
  {
    ContainsInConcat(a, b, "", sub);
    assert a + b + "" == a + b;
  }

  /** A text that occurs in the first part of a concatenation occurs in the whole. */
  lemma ContainsBefore(a: string, b: string, sub: string)
    requires Contains(a, sub)
    ensures Contains(a + b, sub)
  {
    ContainsInConcat("", a, b, sub);
    assert "" + a + b == a + b;
  }

  /** Each part of a join occurs in it. */
  lemma {:induction false} JoinContains(sep: string, parts: seq<string>, i: nat)
    requires i < |parts|
    ensures Contains(Join(sep, parts), parts[i])
  {
    if |parts| == 1 {
      ContainsStart(parts[0], "");
      assert parts[0] + "" == parts[0];
    } else {
      var rest := Join(sep, parts[1..]);
      assert Join(sep, parts) == parts[0] + (sep + rest);
      if i == 0 {
        ContainsStart(parts[0], sep + rest);
      } else {
        JoinContains(sep, parts[1..], i - 1);
        ContainsInConcat(parts[0] + sep, rest, "", parts[i]);
        assert parts[0] + sep + rest + "" == parts[0] + (sep + rest);
      }
    }
  }

  lemma {:induction false} ContainsWitness(s: string, sub: string) returns (i: nat)
    requires Contains(s, sub)
    ensures i + |sub| <= |s| && s[i..i + |sub|] == sub
  {
    if StartsWith(s, sub) {
      i := 0;
    } else {
      var j := ContainsWitness(s[1..], sub);
      assert s[1 + j..1 + j + |sub|] == s[1..][j..j + |sub|];
      i := j + 1;
    }
  }

  /** A text that occurs in a text occurring in `a` occurs in `a`. */
  lemma ContainsTrans(a: string, b: string, c: string)
    requires Contains(a, b) && Contains(b, c)
    ensures Contains(a, c)
  {
    var i := ContainsWitness(a, b);
    var j := ContainsWitness(b, c);
    forall k | 0 <= k < |c|
      ensures a[i + j + k] == c[k]
    {
      assert a[i + j + k] == a[i..i + |b|][j + k];
      assert c[k] == b[j..j + |c|][k];
    }
    assert a[i + j..i + j + |c|] == c;
    ContainsAt(a, c, i + j);
  }

  /** Every character of a text that occurs in `s` is a character of `s`. */
  lemma ContainsChar(s: string, sub: string, k: nat)
    requires Contains(s, sub) && k < |sub|
    ensures sub[k] in s
  {
    var i := ContainsWitness(s, sub);
    assert s[i + k] == s[i..i + |sub|][k];
  }

  function DigitChar(d: nat): (c: char)
    requires d < 10
    ensures '0' <= c <= '9'
  {
    "0123456789"[d]
  }

  /** `str(n)` for a non-negative integer. */
  function NatToString(n: nat): (r: string)
    ensures r != []
    ensures forall k :: 0 <= k < |r| ==> '0' <= r[k] <= '9'
  {
    if n < 10 then [DigitChar(n)] else NatToString(n / 10) + [DigitChar(n % 10)]
  }

  /** `str(i)` for any integer. */
  function IntToString(i: int): string {
    if i < 0 then "-" + NatToString(-i) else NatToString(i)
  }
}
