/** The skill cleaner both services share: each candidate token is stripped, and kept
    only when what is left is at least two characters long. */
module SkillTokens {
  import opened PyBuiltins

  /** Both cleaners keep at most this many skills. */
  const MaxSkills := 10

  /** A token the cleaners keep: stripped, and longer than one character. */
  predicate IsSkill(t: string) {
    IsStripped(t) && |t| > 1
  }

  /** `[t.strip() for t in tokens if len(t.strip()) > 1]`. */
  function CleanTokens(tokens: seq<string>): (r: seq<string>)
    ensures |r| <= |tokens|
    ensures forall i :: 0 <= i < |r| ==> IsSkill(r[i])
  {
    if tokens == [] then []
    else (if |Strip(tokens[0])| > 1 then [Strip(tokens[0])] else []) + CleanTokens(tokens[1..])
  }

  /** Cleaning works token by token: it keeps the order of its input. */
  lemma {:induction false} CleanTokensAppend(a: seq<string>, b: seq<string>)
    ensures CleanTokens(a + b) == CleanTokens(a) + CleanTokens(b)
  {
    if a != [] {
      var head := if |Strip(a[0])| > 1 then [Strip(a[0])] else [];
      var l, r := CleanTokens(a[1..]), CleanTokens(b);
      assert (a + b)[0] == a[0];
      assert (a + b)[1..] == a[1..] + b;
      CleanTokensAppend(a[1..], b);
      assert CleanTokens(a + b) == head + (l + r);
      assert CleanTokens(a) == head + l;
      assert head + (l + r) == (head + l) + r;
    } else {
      assert a + b == b;
    }
  }

  /** `t` is what cleaning keeps of `token`. */
  predicate KeptAs(token: string, t: string) {
    |t| > 1 && Strip(token) == t
  }

  /** A cleaned token is exactly the stripped form of some input token that is long
      enough once stripped. */
  lemma {:induction false} CleanTokensMembership(tokens: seq<string>, t: string)
    ensures t in CleanTokens(tokens) <==> exists i :: 0 <= i < |tokens| && KeptAs(tokens[i], t)
  {
    if tokens != [] {
      var rest := tokens[1..];
      CleanTokensMembership(rest, t);
      var head := if |Strip(tokens[0])| > 1 then [Strip(tokens[0])] else [];
      assert CleanTokens(tokens) == head + CleanTokens(rest);
      assert t in head <==> KeptAs(tokens[0], t);
      assert forall i :: 1 <= i < |tokens| ==> tokens[i] == rest[i - 1];
      if exists i :: 0 <= i < |tokens| && KeptAs(tokens[i], t) {
        var i :| 0 <= i < |tokens| && KeptAs(tokens[i], t);
        assert i == 0 || KeptAs(rest[i - 1], t);
      }
    }
  }

  /** Stripping never brings a character into a token, so characters absent from every
      input token are absent from every cleaned token. */
  lemma {:induction false} CleanTokensNoneOf(tokens: seq<string>, chars: set<char>)
    requires forall i :: 0 <= i < |tokens| ==> NoneOf(tokens[i], chars)
    ensures forall i :: 0 <= i < |CleanTokens(tokens)| ==> NoneOf(CleanTokens(tokens)[i], chars)
  {
    if tokens != [] {
      var rest := tokens[1..];
      assert forall i :: 0 <= i < |rest| ==> rest[i] == tokens[i + 1];
      CleanTokensNoneOf(rest, chars);
      StripNoneOf(tokens[0], chars);
    }
  }

  lemma StripNoneOf(s: string, chars: set<char>)
    requires NoneOf(s, chars)
    ensures NoneOf(Strip(s), chars)
  {
    var i := StripStart(s);
    var r := Strip(s);
    StripSpec(s);
    assert forall k :: 0 <= k < |r| ==> r[k] == s[i + k];
  }

  /** Tokens of at most one character are all dropped. */
  lemma {:induction false} CleanTokensOfShort(tokens: seq<string>)
    requires forall i :: 0 <= i < |tokens| ==> |tokens[i]| <= 1
    ensures CleanTokens(tokens) == []
  {
    if tokens != [] {
      assert forall i :: 0 <= i < |tokens[1..]| ==> tokens[1..][i] == tokens[i + 1];
      CleanTokensOfShort(tokens[1..]);
      assert |Strip(tokens[0])| <= |tokens[0]|;
    }
  }
}
