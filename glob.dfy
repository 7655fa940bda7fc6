/**
 * Shell-style wildcard matching of a package name against a pattern, the way
 * Python's `fnmatch.fnmatch` does it on POSIX: the name is not case-folded,
 * `*` matches any run of characters (including none), `?` any one character,
 * `[...]` one character of a set (`[!...]` one character outside it), and
 * every other character stands for itself. A `[` without a closing `]` is an
 * ordinary character.
 */
module Glob {
  import opened Wrappers
  import opened Text

  /** One member of a bracket expression: a character, or an inclusive range `lo-hi`. */
  datatype ClassItem = Single(c: char) | Span(lo: char, hi: char)

  /** A bracket expression: its members, and whether it was written `[!...]`. */
  datatype CharClass = CharClass(negated: bool, items: seq<ClassItem>)

  predicate InItem(c: char, it: ClassItem) {
    match it
    case Single(x) => c == x
    case Span(lo, hi) => lo <= c <= hi
  }

  predicate InClass(c: char, cls: CharClass) {
    (exists it :: it in cls.items && InItem(c, it)) != cls.negated
  }

  /** Index of the first `]` in `t` at or after `j`, or `|t|` when there is none. */
  function CloseIndex(t: string, j: nat): (k: nat)
    requires j <= |t|
    ensures j <= k <= |t|
    ensures k < |t| ==> t[k] == ']'
    ensures forall m :: j <= m < k ==> t[m] != ']'
    decreases |t| - j
  {
    if j == |t| || t[j] == ']' then j else CloseIndex(t, j + 1)
  }

  /**
   * The members of a bracket body, read left to right as a regular-expression
   * character class reads them: `x-y` is a range when a character follows the
   * dash, and a dash at either end is an ordinary character.
   */
  function Items(b: string): (r: seq<ClassItem>)
    ensures |r| <= |b|
    ensures b != [] ==> r != []
    ensures (forall i :: 0 <= i < |b| ==> b[i] != '-') ==> |r| == |b| && forall i :: 0 <= i < |b| ==> r[i] == Single(b[i])
    decreases |b|
  {
    if b == [] then []
    else if |b| >= 3 && b[1] == '-' then [Span(b[0], b[2])] + Items(b[3..])
    else [Single(b[0])] + Items(b[1..])
  }

  /**
   * Reads a bracket expression whose `[` has already been consumed. Gives the
   * class and the rest of the pattern, or None when no `]` closes it. A `]`
   * directly after `[` or `[!` belongs to the set.
   */
  function ParseClass(t: string): (r: Option<(CharClass, string)>)
    ensures r.Some? ==> |r.value.1| < |t| && r.value.1 == t[|t| - |r.value.1|..]
    ensures r.None? <==> forall m :: (if 0 < |t| && t[0] == '!' then 1 else 0) + 1 <= m < |t| ==> t[m] != ']'
  {
    var j0 := if 0 < |t| && t[0] == '!' then 1 else 0;
    var j1 := if j0 < |t| && t[j0] == ']' then j0 + 1 else j0;
    var k := CloseIndex(t, j1);
    if k == |t| then None
    else Some((CharClass(j0 == 1, Items(t[j0..k])), t[k + 1..]))
  }

  /** A pattern without `*`: every other token stands for exactly one character. */
  predicate StarFree(p: string) {
    forall i :: 0 <= i < |p| ==> p[i] != '*'
  }

  /**
   * `fnmatch.fnmatch(name, pat)` on POSIX. Only `*` matches a run of
   * characters, so a pattern without it never matches a name longer than itself.
   */
  predicate Match(name: string, pat: string)
    ensures Match(name, pat) && StarFree(pat) ==> |name| <= |pat|
    decreases |pat|, |name|
  {
    if pat == [] then name == []
    else if pat[0] == '*' then Match(name, pat[1..]) || (name != [] && Match(name[1..], pat))
    else if pat[0] == '?' then name != [] && Match(name[1..], pat[1..])
    else if pat[0] == '[' && ParseClass(pat[1..]).Some? then
      var cls := ParseClass(pat[1..]).value.0;
      var rest := ParseClass(pat[1..]).value.1;
      name != [] && InClass(name[0], cls) && Match(name[1..], rest)
    else name != [] && name[0] == pat[0] && Match(name[1..], pat[1..])
  }

  /** A pattern with no wildcard characters. */
  predicate Literal(p: string) {
    forall i :: 0 <= i < |p| ==> p[i] != '*' && p[i] != '?' && p[i] != '['
  }

  /** `*` alone matches every name, the empty one included. */
  lemma {:induction false} StarMatchesAll(name: string)
    ensures Match(name, "*")
    decreases |name|
  {
    if name != [] {
      StarMatchesAll(name[1..]);
    }
  }

  /** A pattern without wildcards matches exactly the name spelled like it (case-sensitively). */
  lemma {:induction false} LiteralMatchesItself(name: string, p: string)
    requires Literal(p)
    ensures Match(name, p) <==> name == p
    decreases |p|
  {
    if p != [] {
      assert Literal(p[1..]);
      if name != [] {
        LiteralMatchesItself(name[1..], p[1..]);
        assert name == [name[0]] + name[1..];
        assert p == [p[0]] + p[1..];
      }
    }
  }

  /** `prefix*` matches exactly the names that start with `prefix`. */
  lemma {:induction false} PrefixStarMatches(name: string, prefix: string)
    requires Literal(prefix)
    ensures Match(name, prefix + "*") <==> StartsWith(name, prefix)
    decreases |prefix|
  {
    if prefix == [] {
      assert prefix + "*" == "*";
      StarMatchesAll(name);
    } else {
      var pat := prefix + "*";
      assert pat[0] == prefix[0] && pat[1..] == prefix[1..] + "*";
      assert Literal(prefix[1..]);
      if name != [] {
        PrefixStarMatches(name[1..], prefix[1..]);
        if StartsWith(name, prefix) {
          assert name[1..][..|prefix| - 1] == name[..|prefix|][1..];
        }
        if name[0] == prefix[0] && StartsWith(name[1..], prefix[1..]) {
          assert name[..|prefix|] == [name[0]] + name[1..][..|prefix| - 1];
          assert prefix == [prefix[0]] + prefix[1..];
        }
      }
    }
  }

  /** `*suffix` matches exactly the names that end with `suffix`. */
  lemma {:induction false} StarSuffixMatches(name: string, suffix: string)
    requires Literal(suffix)
    ensures Match(name, "*" + suffix) <==> EndsWith(name, suffix)
    decreases |name|
  {
    var pat := "*" + suffix;
    assert pat[1..] == suffix;
    LiteralMatchesItself(name, suffix);
    if name == [] {
    } else {
      StarSuffixMatches(name[1..], suffix);
      if EndsWith(name[1..], suffix) {
        assert name[|name| - |suffix|..] == name[1..][|name| - 1 - |suffix|..];
      }
      if EndsWith(name, suffix) && name != suffix {
        assert |suffix| < |name|;
        assert name[|name| - |suffix|..] == name[1..][|name| - 1 - |suffix|..];
      }
    }
  }

  /** The first `]` at or after `j` is the one at `k` when none lies between. */
  lemma CloseIndexAt(t: string, j: nat, k: nat)
    requires j <= k < |t| && t[k] == ']'
    requires forall m :: j <= m < k ==> t[m] != ']'
    ensures CloseIndex(t, j) == k
  {
  }

  /** A bracket body that runs up to the last character, a `]`, and holds none itself. */
  lemma ParseClassToEnd(t: string, j0: nat)
    requires j0 == (if 0 < |t| && t[0] == '!' then 1 else 0)
    requires j0 < |t| - 1 && t[j0] != ']' && t[|t| - 1] == ']'
    requires forall m :: j0 <= m < |t| - 1 ==> t[m] != ']'
    ensures ParseClass(t) == Some((CharClass(j0 == 1, Items(t[j0..|t| - 1])), []))
  {
    CloseIndexAt(t, j0, |t| - 1);
  }

  /** The body of `[body]` or `[!body]`, with no `]` in it, is read up to the final `]`. */
  lemma ParseClosedClass(body: string, negated: bool)
    requires body != [] && forall i :: 0 <= i < |body| ==> body[i] != ']'
    requires !negated ==> body[0] != '!'
    ensures ParseClass((if negated then "!" else "") + body + "]") == Some((CharClass(negated, Items(body)), []))
  {
    if negated {
      var t := "!" + body + "]";
      assert t[1..|t| - 1] == body;
      assert forall m :: 1 <= m < |t| - 1 ==> t[m] == body[m - 1];
      ParseClassToEnd(t, 1);
    } else {
      var t := body + "]";
      assert (if negated then "!" else "") + body + "]" == t;
      assert t[0] == body[0] && t[|t| - 1] == ']';
      assert t[0..|t| - 1] == body;
      ParseClassToEnd(t, 0);
    }
  }

  /** A pattern that opens with a closed bracket expression consumes one character of that class. */
  lemma MatchClassStep(name: string, pat: string)
    requires pat != [] && pat[0] == '[' && ParseClass(pat[1..]).Some?
    ensures Match(name, pat) <==>
      name != [] && InClass(name[0], ParseClass(pat[1..]).value.0) && Match(name[1..], ParseClass(pat[1..]).value.1)
  {
  }

  /**
   * A closed bracket expression `[body]` (`[!body]` when negated) matches
   * exactly the one-character names whose character is in the set (outside
   * it when negated).
   */
  lemma BracketMatchesOneChar(name: string, body: string, negated: bool)
    requires body != [] && forall i :: 0 <= i < |body| ==> body[i] != ']'
    requires !negated ==> body[0] != '!'
    ensures Match(name, "[" + (if negated then "!" else "") + body + "]") <==>
      |name| == 1 && InClass(name[0], CharClass(negated, Items(body)))
  {
    var pat := "[" + (if negated then "!" else "") + body + "]";
    PatternSplit(body, negated);
    ParseClosedClass(body, negated);
    MatchClassStep(name, pat);
  }

  /** Past its `[`, a bracket pattern is the class body with its closing `]`. */
  lemma PatternSplit(body: string, negated: bool)
    ensures var pat := "[" + (if negated then "!" else "") + body + "]";
      pat != [] && pat[0] == '[' && pat[1..] == (if negated then "!" else "") + body + "]"
  {
    var t := (if negated then "!" else "") + body + "]";
    var pat := "[" + (if negated then "!" else "") + body + "]";
    assert pat == "[" + t;
  }

  /** Without ranges, a bracket expression is the set of the characters written in it. */
  lemma ClassWithoutRanges(c: char, body: string, negated: bool)
    requires forall i :: 0 <= i < |body| ==> body[i] != '-'
    ensures InClass(c, CharClass(negated, Items(body))) <==> (c in body) != negated
  {
    var items := Items(body);
    if c in body {
      var i :| 0 <= i < |body| && body[i] == c;
      assert InItem(c, items[i]);
    }
    if exists it :: it in items && InItem(c, it) {
      var it :| it in items && InItem(c, it);
      var i :| 0 <= i < |items| && items[i] == it;
      assert body[i] == c;
    }
  }

  /** A range `lo-hi` as the whole bracket body holds exactly the characters from `lo` to `hi`. */
  lemma ClassRange(c: char, lo: char, hi: char, negated: bool)
    ensures InClass(c, CharClass(negated, Items([lo, '-', hi]))) <==> (lo <= c <= hi) != negated
  {
    assert [lo, '-', hi][3..] == [];
    assert Items([lo, '-', hi]) == [Span(lo, hi)];
    if lo <= c <= hi {
      assert InItem(c, Span(lo, hi));
    }
  }

  /** `?` matches exactly the one-character names. */
  lemma QuestionMatchesOneChar(name: string)
    ensures Match(name, "?") <==> |name| == 1
  {
    if name != [] {
      assert Match(name[1..], "") <==> name[1..] == [];
    }
  }
}
