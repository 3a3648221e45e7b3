/**
 * The LIKE-pattern mapper of the query layer, and the SQL LIKE matching it feeds, so that what
 * each mode selects can be stated. As written, END yields a "starts with" pattern and START an
 * "ends with" pattern.
 */
module MatchModes {

  datatype MatchMode = Anywhere | End | Start

  /** `MatchMode.parse`: wraps `pattern` in the `%` wildcards of the mode. */
  function Parse(mode: MatchMode, pattern: string): (r: string)
    ensures |r| == if mode == Anywhere then |pattern| + 2 else |pattern| + 1
    ensures mode == Anywhere ==> r[0] == '%' && r[1..|r| - 1] == pattern && r[|r| - 1] == '%'
    ensures mode == End ==> r[..|pattern|] == pattern && r[|pattern|] == '%'
    ensures mode == Start ==> r[0] == '%' && r[1..] == pattern
  {
    match mode
    case Anywhere => "%" + pattern + "%"
    case End => pattern + "%"
    case Start => "%" + pattern
  }

  /** Whether `p` occurs in `s` as one contiguous piece. */
  predicate Contains(s: string, p: string) {
    exists i :: 0 <= i <= |s| - |p| && s[i..][..|p|] == p
  }

  /** The result holds `pattern` as one contiguous piece. */
  lemma ParseContainsPattern(mode: MatchMode, pattern: string)
    ensures Contains(Parse(mode, pattern), pattern)
  {
    var r := Parse(mode, pattern);
    var i := if mode == End then 0 else 1;
    assert r[i..][..|pattern|] == pattern;
  }

  predicate IsWildcard(c: char) {
    c == '%' || c == '_'
  }

  predicate NoWildcards(p: string) {
    forall i :: 0 <= i < |p| ==> !IsWildcard(p[i])
  }

  /** SQL LIKE without an escape character: `%` matches any run, `_` any one character. */
  function Like(pattern: string, s: string): bool
    decreases |pattern| + |s|
  {
    if pattern == [] then s == []
    else if pattern[0] == '%' then Like(pattern[1..], s) || (s != [] && Like(pattern, s[1..]))
    else if pattern[0] == '_' then s != [] && Like(pattern[1..], s[1..])
    else s != [] && s[0] == pattern[0] && Like(pattern[1..], s[1..])
  }

  /** A pattern without wildcards matches only itself. */
  lemma {:induction false} LikeLiteral(p: string, s: string)
    requires NoWildcards(p)
    ensures Like(p, s) <==> s == p
    decreases |p|
  {
    if p != [] && s != [] {
      assert NoWildcards(p[1..]) by {
        forall i | 0 <= i < |p[1..]| ensures !IsWildcard(p[1..][i]) {
          assert p[1..][i] == p[i + 1];
        }
      }
      LikeLiteral(p[1..], s[1..]);
      if s[0] == p[0] && s[1..] == p[1..] {
        assert s == [s[0]] + s[1..] && p == [p[0]] + p[1..];
      }
    }
  }

  /** A leading `%` lets the rest of the pattern match any suffix of `s`. */
  lemma {:induction false} LikeLeadingPercent(q: string, s: string)
    ensures Like("%" + q, s) <==> exists k :: 0 <= k <= |s| && Like(q, s[k..])
    decreases |s|
  {
    var pat := "%" + q;
    assert pat[0] == '%' && pat[1..] == q;
    assert s[0..] == s;
    if s != [] {
      LikeLeadingPercent(q, s[1..]);
      if Like(pat, s[1..]) {
        var k :| 0 <= k <= |s[1..]| && Like(q, s[1..][k..]);
        assert s[1..][k..] == s[k + 1..];
      }
      if exists k :: 0 <= k <= |s| && Like(q, s[k..]) {
        var k :| 0 <= k <= |s| && Like(q, s[k..]);
        if k > 0 {
          assert s[1..][k - 1..] == s[k..];
        }
      }
    }
  }

  /** A trailing `%` lets the rest of the pattern match any prefix of `s`. */
  lemma {:induction false} LikeTrailingPercent(p: string, s: string)
    requires NoWildcards(p)
    ensures Like(p + "%", s) <==> |p| <= |s| && s[..|p|] == p
    decreases |p|
  {
    var pat := p + "%";
    if p == [] {
      assert pat == "%";
      AnyMatchesPercent(s);
    } else {
      assert pat[0] == p[0] && pat[1..] == p[1..] + "%";
      assert NoWildcards(p[1..]) by {
        forall i | 0 <= i < |p[1..]| ensures !IsWildcard(p[1..][i]) {
          assert p[1..][i] == p[i + 1];
        }
      }
      assert !IsWildcard(p[0]);
      if s != [] {
        LikeTrailingPercent(p[1..], s[1..]);
        if |p| <= |s| {
          assert s[..|p|] == [s[0]] + s[1..][..|p| - 1];
          assert p == [p[0]] + p[1..];
        }
      }
    }
  }

  lemma {:induction false} AnyMatchesPercent(s: string)
    ensures Like("%", s)
    decreases |s|
  {
    if s != [] {
      AnyMatchesPercent(s[1..]);
    }
  }

  /** END selects the values that start with the pattern. */
  lemma EndMatchesPrefix(p: string, s: string)
    requires NoWildcards(p)
    ensures Like(Parse(End, p), s) <==> |p| <= |s| && s[..|p|] == p
  {
    LikeTrailingPercent(p, s);
  }

  /** START selects the values that end with the pattern. */
  lemma StartMatchesSuffix(p: string, s: string)
    requires NoWildcards(p)
    ensures Like(Parse(Start, p), s) <==> |p| <= |s| && s[|s| - |p|..] == p
  {
    LikeLeadingPercent(p, s);
    assert Parse(Start, p) == "%" + p;
    if Like(Parse(Start, p), s) {
      var k :| 0 <= k <= |s| && Like(p, s[k..]);
      LikeLiteral(p, s[k..]);
      assert |s| - |p| == k;
    } else if |p| <= |s| {
      var k := |s| - |p|;
      LikeLiteral(p, s[k..]);
    }
  }

  /** ANYWHERE selects the values that contain the pattern. */
  lemma AnywhereMatchesInfix(p: string, s: string)
    requires NoWildcards(p)
    ensures Like(Parse(Anywhere, p), s) <==> Contains(s, p)
  {
    assert Parse(Anywhere, p) == "%" + (p + "%");
    LikeLeadingPercent(p + "%", s);
    if exists i :: 0 <= i <= |s| - |p| && s[i..][..|p|] == p {
      var i :| 0 <= i <= |s| - |p| && s[i..][..|p|] == p;
      LikeTrailingPercent(p, s[i..]);
    }
    if exists k :: 0 <= k <= |s| && Like(p + "%", s[k..]) {
      var k :| 0 <= k <= |s| && Like(p + "%", s[k..]);
      LikeTrailingPercent(p, s[k..]);
    }
  }
}
