/** `re.escape` (Python 3.7 and later) and the two facts about escaped text the job
    search relies on: an escaped string reads back as itself, and an escaped string
    holds no unescaped `|`, so `"|".join` of escaped skills is a regular expression
    whose alternatives are exactly those skills, in order. */
module PyRegex {
  import opened PyBuiltins

  /** The characters `re.escape` puts a backslash in front of. */
  const Special: set<char> := {
    '(', ')', '[', ']', '{', '}', '?', '*', '+', '-', '|', '^', '$', '\\', '.', '&', '~', '#',
    ' ', '\t', '\n', '\r', '\U{0B}', '\U{0C}' }

  /** `re.escape(s)`. */
  function Escape(s: string): (r: string)
    ensures |s| <= |r| <= 2 * |s|
  {
    if s == [] then []
    else (if s[0] in Special then ['\\', s[0]] else [s[0]]) + Escape(s[1..])
  }

  function EscapeAll(xs: seq<string>): (r: seq<string>)
    ensures |r| == |xs| && forall i :: 0 <= i < |xs| ==> r[i] == Escape(xs[i])
  {
    seq(|xs|, i requires 0 <= i < |xs| => Escape(xs[i]))
  }

  /** The text a pattern made of literal characters and backslash escapes matches. */
  function Unescape(p: string): string
    decreases |p|
  {
    if p == [] then []
    else if p[0] == '\\' && |p| >= 2 then [p[1]] + Unescape(p[2..])
    else [p[0]] + Unescape(p[1..])
  }

  /** The top-level alternatives of a pattern: its pieces between `|` characters that
      are not escaped by a backslash. */
  function Alternatives(p: string): (r: seq<string>)
    ensures |r| >= 1
    decreases |p|
  {
    if p == [] then [""]
    else if p[0] == '\\' && |p| >= 2 then
      var rest := Alternatives(p[2..]);
      [p[..2] + rest[0]] + rest[1..]
    else if p[0] == '|' then [""] + Alternatives(p[1..])
    else
      var rest := Alternatives(p[1..]);
      [[p[0]] + rest[0]] + rest[1..]
  }

  /** An escaped string matches exactly itself: `re.escape` loses nothing. */
  lemma {:induction false} UnescapeEscape(s: string)
    ensures Unescape(Escape(s)) == s
  {
    if s != [] {
      UnescapeEscape(s[1..]);
      var e := Escape(s);
      if s[0] in Special {
        assert e == ['\\', s[0]] + Escape(s[1..]);
        assert e[2..] == Escape(s[1..]);
      } else {
        assert e == [s[0]] + Escape(s[1..]);
        assert e[1..] == Escape(s[1..]);
      }
    }
  }

  /** One escaped character of `re.escape`'s output: a backslash pair, or a character
      that is neither a backslash nor `|`. */
  predicate EscapeUnit(u: string) {
    || (|u| == 2 && u[0] == '\\')
    || (|u| == 1 && u[0] != '\\' && u[0] != '|')
  }

  lemma AlternativesAfterUnit(u: string, tail: string)
    requires EscapeUnit(u)
    ensures var r := Alternatives(tail);
      Alternatives(u + tail) == [u + r[0]] + r[1..]
  {
    var p := u + tail;
    if |u| == 2 {
      assert p[2..] == tail && p[..2] == u;
    } else {
      assert p[1..] == tail && [p[0]] == u;
    }
  }

  /** An escaped string does not end an alternative: it joins the first alternative of
      whatever follows it. */
  lemma {:induction false} AlternativesAfterEscape(s: string, rest: string)
    ensures var r := Alternatives(rest);
      Alternatives(Escape(s) + rest) == [Escape(s) + r[0]] + r[1..]
  {
    var r := Alternatives(rest);
    if s == [] {
      assert Escape(s) == [];
      assert Escape(s) + rest == rest;
      assert Escape(s) + r[0] == r[0];
      assert [r[0]] + r[1..] == r;
    } else {
      var head := if s[0] in Special then ['\\', s[0]] else [s[0]];
      var tail := Escape(s[1..]) + rest;
      assert Escape(s) == head + Escape(s[1..]);
      assert Escape(s) + rest == head + tail;
      AlternativesAfterEscape(s[1..], rest);
      AlternativesAfterUnit(head, tail);
      assert head + (Escape(s[1..]) + r[0]) == Escape(s) + r[0];
    }
  }

  /** The skills pattern `"|".join(re.escape(s) for s in skills)` has one alternative per
      skill, in input order, and each alternative matches its skill literally. */
  lemma {:induction false} JoinedEscapesAlternatives(skills: seq<string>)
    requires skills != []
    ensures Alternatives(Join("|", EscapeAll(skills))) == EscapeAll(skills)
    ensures forall i :: 0 <= i < |skills| ==> Unescape(Alternatives(Join("|", EscapeAll(skills)))[i]) == skills[i]
  {
    var es := EscapeAll(skills);
    if |skills| == 1 {
      AlternativesAfterEscape(skills[0], "");
      assert Escape(skills[0]) + "" == Escape(skills[0]);
      assert Join("|", es) == es[0];
      assert es == [Escape(skills[0])];
    } else {
      JoinedEscapesAlternatives(skills[1..]);
      assert EscapeAll(skills[1..]) == es[1..];
      var tail := Join("|", es[1..]);
      assert Join("|", es) == Escape(skills[0]) + ("|" + tail);
      AlternativesAfterEscape(skills[0], "|" + tail);
      assert ("|" + tail)[1..] == tail;
      assert Alternatives("|" + tail) == [""] + es[1..];
      assert Escape(skills[0]) + "" == es[0];
      assert [es[0]] + es[1..] == es;
    }
    forall i | 0 <= i < |skills|
      ensures Unescape(Alternatives(Join("|", es))[i]) == skills[i]
    {
      assert Alternatives(Join("|", es))[i] == Escape(skills[i]);
      UnescapeEscape(skills[i]);
    }
  }
}
