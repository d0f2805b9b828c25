/**
 * Shell-style pattern matching as Python's `fnmatch.fnmatch` performs it on
 * a POSIX system, where it does not fold case: a pattern is compiled into
 * tokens and a name matches when the WHOLE name is accepted by the tokens.
 *
 *   `*`       any run of characters, the empty run included
 *   `?`       exactly one character
 *   `[seq]`   one character of seq; `[!seq]` one character not in seq
 *   other     the character itself
 *
 * In a class, `x-y` is the range from x to y (a range whose ends are out of
 * order contains nothing), a `]` right after `[` or `[!` is a member, and a
 * `[` that no `]` closes stands for itself.
 */
module Glob {
  import opened Wrappers

  datatype ClassItem = Single(c: char) | Span(lo: char, hi: char)

  datatype Token =
    | Literal(c: char)
    | AnyChar
    | Star
    | CharClass(negated: bool, items: seq<ClassItem>)

  predicate IsMeta(c: char) {
    c == '*' || c == '?' || c == '['
  }

  /** A pattern in which every character stands for itself. */
  predicate NoMeta(pat: string) {
    forall i :: 0 <= i < |pat| ==> !IsMeta(pat[i])
  }

  /** Index in `r` of the first `]` at or after `j`. */
  function FindClose(r: string, j: nat): (k: Option<nat>)
    requires j <= |r|
    decreases |r| - j
    ensures k.Some? ==> j <= k.value < |r| && r[k.value] == ']'
    ensures k.Some? ==> forall m :: j <= m < k.value ==> r[m] != ']'
    ensures k.None? ==> forall m :: j <= m < |r| ==> r[m] != ']'
  {
    if j == |r| then None
    else if r[j] == ']' then Some(j)
    else FindClose(r, j + 1)
  }

  /**
   * `r` is what follows a `[`: the index of the `]` that closes the class,
   * skipping a leading `!` and then a leading `]`, which belong to the class.
   */
  function ClassEnd(r: string): (k: Option<nat>)
    ensures k.Some? ==> 0 < k.value < |r| && r[k.value] == ']'
  {
    var j0 := if 0 < |r| && r[0] == '!' then 1 else 0;
    var j1 := if j0 < |r| && r[j0] == ']' then j0 + 1 else j0;
    FindClose(r, j1)
  }

  /** The members of a class body, read left to right: `x-y` is a range when a character follows the `-`. */
  function ParseItems(body: string): (items: seq<ClassItem>)
    ensures |items| <= |body|
  {
    if |body| == 0 then []
    else if |body| >= 3 && body[1] == '-' then [Span(body[0], body[2])] + ParseItems(body[3..])
    else [Single(body[0])] + ParseItems(body[1..])
  }

  function ClassToken(body: string): Token {
    if 0 < |body| && body[0] == '!' then CharClass(true, ParseItems(body[1..]))
    else CharClass(false, ParseItems(body))
  }

  /** The tokens of a pattern (what `fnmatch.translate` turns into a regular expression). */
  function Compile(pat: string): (toks: seq<Token>)
    ensures |toks| <= |pat|
  {
    if pat == [] then []
    else if pat[0] == '*' then [Star] + Compile(pat[1..])
    else if pat[0] == '?' then [AnyChar] + Compile(pat[1..])
    else if pat[0] == '[' then
      match ClassEnd(pat[1..])
      case None => [Literal('[')] + Compile(pat[1..])
      case Some(k) => [ClassToken(pat[1..][..k])] + Compile(pat[1..][k + 1..])
    else [Literal(pat[0])] + Compile(pat[1..])
  }

  predicate ItemHas(item: ClassItem, c: char) {
    match item
    case Single(d) => c == d
    case Span(lo, hi) => lo <= c <= hi
  }

  predicate ClassHas(items: seq<ClassItem>, c: char) {
    exists k :: 0 <= k < |items| && ItemHas(items[k], c)
  }

  /** Whether a token other than `Star` accepts the single character `c`. */
  predicate Accepts(t: Token, c: char) {
    match t
    case Literal(d) => c == d
    case AnyChar => true
    case Star => true
    case CharClass(negated, items) => ClassHas(items, c) != negated
  }

  /** Whether the tokens accept the whole of `name` (the match is anchored at both ends). */
  predicate MatchTokens(toks: seq<Token>, name: string)
    decreases |toks|, |name|
  {
    if toks == [] then name == []
    else if toks[0].Star? then
      MatchTokens(toks[1..], name) || (0 < |name| && MatchTokens(toks, name[1..]))
    else
      0 < |name| && Accepts(toks[0], name[0]) && MatchTokens(toks[1..], name[1..])
  }

  /** `fnmatch.fnmatch(name, pat)`: case-sensitive, whole-name glob match. */
  predicate FnMatch(name: string, pat: string) {
    MatchTokens(Compile(pat), name)
  }

  // ---------------------------------------------------------------------
  // Properties

  function Literals(s: string): (toks: seq<Token>)
    ensures |toks| == |s|
    ensures forall i :: 0 <= i < |s| ==> toks[i] == Literal(s[i])
  {
    if s == [] then [] else [Literal(s[0])] + Literals(s[1..])
  }

  lemma {:induction false} CompileNoMeta(pat: string, tail: string)
    requires NoMeta(pat)
    ensures Compile(pat + tail) == Literals(pat) + Compile(tail)
    decreases |pat|
  {
    if pat != [] {
      assert (pat + tail)[0] == pat[0];
      assert (pat + tail)[1..] == pat[1..] + tail;
      assert NoMeta(pat[1..]) by {
        forall i | 0 <= i < |pat[1..]| ensures !IsMeta(pat[1..][i]) { assert pat[1..][i] == pat[i + 1]; }
      }
      CompileNoMeta(pat[1..], tail);
      assert Literals(pat) == [Literal(pat[0])] + Literals(pat[1..]);
    } else {
      assert pat + tail == tail;
    }
  }

  lemma {:induction false} MatchLiterals(s: string, rest: seq<Token>, name: string)
    ensures MatchTokens(Literals(s) + rest, name)
        <==> (s <= name && MatchTokens(rest, name[|s|..]))
    decreases |s|
  {
    if s != [] {
      var toks := Literals(s) + rest;
      assert toks[0] == Literal(s[0]);
      assert toks[1..] == Literals(s[1..]) + rest;
      if 0 < |name| {
        MatchLiterals(s[1..], rest, name[1..]);
        if |s| <= |name| {
          assert name[1..][|s| - 1..] == name[|s|..];
        }
        assert s <= name <==> (s[0] == name[0] && s[1..] <= name[1..]);
      }
    } else {
      assert Literals(s) + rest == rest;
    }
  }

  /** A pattern without `*`, `?` or `[` matches exactly the name spelled the same way (case included). */
  lemma LiteralPatternMatchesOnlyItself(name: string, pat: string)
    requires NoMeta(pat)
    ensures FnMatch(name, pat) <==> name == pat
  {
    CompileNoMeta(pat, "");
    assert pat + "" == pat;
    assert Literals(pat) + Compile("") == Literals(pat) + [];
    MatchLiterals(pat, [], name);
  }

  lemma {:induction false} StarAcceptsAll(name: string)
    ensures MatchTokens([Star], name)
    decreases |name|
  {
    if 0 < |name| {
      StarAcceptsAll(name[1..]);
    } else {
      assert [Star][1..] == [];
    }
  }

  /** `*` alone matches every name, the empty one included. */
  lemma StarMatchesEverything(name: string)
    ensures FnMatch(name, "*")
  {
    assert "*"[0] == '*' && "*"[1..] == "";
    assert Compile("*") == [Star];
    StarAcceptsAll(name);
  }

  /** A literal prefix followed by `*` matches exactly the names that start with the prefix. */
  lemma PrefixPattern(name: string, prefix: string)
    requires NoMeta(prefix)
    ensures FnMatch(name, prefix + "*") <==> prefix <= name
  {
    CompileNoMeta(prefix, "*");
    assert "*"[0] == '*' && "*"[1..] == "";
    assert Compile("*") == [Star];
    MatchLiterals(prefix, [Star], name);
    if prefix <= name {
      StarAcceptsAll(name[|prefix|..]);
    }
  }

  /** The example allow-list pattern `dep*`: anchored at the start, so not a substring search. */
  lemma DeployExample()
    ensures FnMatch("deploy", "dep*")
    ensures !FnMatch("redeploy", "dep*")
  {
    assert NoMeta("dep");
    PrefixPattern("deploy", "dep");
    PrefixPattern("redeploy", "dep");
    assert "dep" + "*" == "dep*";
  }

  /** A `*` absorbs some suffix-free part of the name: it matches iff the rest matches some suffix. */
  lemma {:induction false} StarSplit(rest: seq<Token>, name: string)
    ensures MatchTokens([Star] + rest, name)
        <==> exists k :: 0 <= k <= |name| && MatchTokens(rest, name[k..])
    decreases |name|
  {
    var toks := [Star] + rest;
    assert toks[0] == Star && toks[1..] == rest;
    if MatchTokens(toks, name) {
      if MatchTokens(rest, name) {
        assert name[0..] == name;
      } else {
        StarSplit(rest, name[1..]);
        var k :| 0 <= k <= |name[1..]| && MatchTokens(rest, name[1..][k..]);
        assert name[1..][k..] == name[k + 1..];
      }
    }
    if exists k :: 0 <= k <= |name| && MatchTokens(rest, name[k..]) {
      var k :| 0 <= k <= |name| && MatchTokens(rest, name[k..]);
      if k == 0 {
        assert name[0..] == name;
      } else {
        assert name[1..][k - 1..] == name[k..];
        StarSplit(rest, name[1..]);
      }
    }
  }

  /** Without `*`, a match consumes exactly one character per token: the name is anchored at both ends. */
  lemma {:induction false} NoStarFixesLength(toks: seq<Token>, name: string)
    requires forall i :: 0 <= i < |toks| ==> !toks[i].Star?
    requires MatchTokens(toks, name)
    ensures |name| == |toks|
    decreases |toks|
  {
    if toks != [] {
      assert !toks[0].Star?;
      NoStarFixesLength(toks[1..], name[1..]);
    }
  }

  /** `?` matches exactly the one-character names. */
  lemma QuestionMarkMatchesOneChar(name: string)
    ensures FnMatch(name, "?") <==> |name| == 1
  {
    assert "?"[0] == '?' && "?"[1..] == "";
    assert Compile("?") == [AnyChar];
    SingleToken(AnyChar, name);
  }

  lemma {:induction false} FindCloseFirst(r: string, j: nat, k: nat)
    requires j <= k < |r| && r[k] == ']'
    requires forall m :: j <= m < k ==> r[m] != ']'
    ensures FindClose(r, j) == Some(k)
    decreases k - j
  {
    if j < k {
      FindCloseFirst(r, j + 1, k);
    }
  }

  /** A single token other than `*` matches exactly the one-character names it accepts. */
  lemma SingleToken(t: Token, name: string)
    requires !t.Star?
    ensures MatchTokens([t], name) <==> |name| == 1 && Accepts(t, name[0])
  {
    assert [t][0] == t && [t][1..] == [];
  }

  /** After the `[` of `[` + bang + body + `]`, the class closes at the final `]`. */
  lemma ClassEndOf(bang: string, body: string)
    requires bang == "" || bang == "!"
    requires 0 < |body| && body[0] != '!'
    requires forall i :: 0 <= i < |body| ==> body[i] != ']'
    ensures ClassEnd(bang + body + "]") == Some(|bang| + |body|)
  {
    var r := bang + body + "]";
    var k := |bang| + |body|;
    var j0 := if 0 < |r| && r[0] == '!' then 1 else 0;
    assert j0 == |bang|;
    assert r[j0] == body[0];
    assert r[k] == ']';
    forall m | j0 <= m < k ensures r[m] != ']' {
      assert r[m] == body[m - |bang|];
    }
    FindCloseFirst(r, j0, k);
  }

  lemma ClassTokenOf(bang: string, body: string)
    requires bang == "" || bang == "!"
    requires 0 < |body| && body[0] != '!'
    ensures ClassToken(bang + body) == CharClass(bang == "!", ParseItems(body))
  {
    if bang == "!" { assert (bang + body)[1..] == body; }
    else { assert bang + body == body; }
  }

  /** The tokens of `[` + bang + body + `]` when body holds no `]` and does not start with `!`. */
  lemma CompileClass(bang: string, body: string)
    requires bang == "" || bang == "!"
    requires 0 < |body| && body[0] != '!'
    requires forall i :: 0 <= i < |body| ==> body[i] != ']'
    ensures Compile("[" + bang + body + "]") == [CharClass(bang == "!", ParseItems(body))]
  {
    var pat := "[" + bang + body + "]";
    var r := bang + body + "]";
    var k := |bang| + |body|;
    assert pat[0] == '[' && pat[1..] == r;
    ClassEndOf(bang, body);
    assert Compile(pat) == [ClassToken(r[..k])] + Compile(r[k + 1..]);
    assert r[..k] == bang + body && r[k + 1..] == "";
    ClassTokenOf(bang, body);
  }

  /**
   * `[body]`, for a body without `]` that does not start with `!`, matches a
   * one-character name iff the character is a member; `[!body]` iff it is not.
   */
  lemma ClassPattern(name: string, body: string, negated: bool)
    requires 0 < |body| && body[0] != '!'
    requires forall i :: 0 <= i < |body| ==> body[i] != ']'
    ensures FnMatch(name, "[" + (if negated then "!" else "") + body + "]")
        <==> |name| == 1 && ClassHas(ParseItems(body), name[0]) != negated
  {
    var bang: string := if negated then "!" else "";
    CompileClass(bang, body);
    SingleToken(CharClass(negated, ParseItems(body)), name);
  }

  /** An unterminated `[` stands for itself. */
  lemma UnclosedBracketIsLiteral(name: string)
    ensures FnMatch(name, "[") <==> name == "["
  {
    assert "["[0] == '[' && "["[1..] == "";
    assert ClassEnd("") == None;
    assert Compile("[") == [Literal('[')];
    SingleToken(Literal('['), name);
  }
}
