/**
 * Text operations the service relies on: lower-casing, Python's substring
 * test `sub in s`, and PostgreSQL's LIKE / ILIKE pattern matching.
 */
module Strings {

  /** ASCII lower-casing of one character; other characters are unchanged. */
  function LowerChar(c: char): char
  {
    if 'A' <= c <= 'Z' then (c as int + 32) as char else c
  }

  /** Character-wise lower-casing of a string. */
  function Lower(s: string): (r: string)
    ensures |r| == |s|
    ensures forall i :: 0 <= i < |s| ==> r[i] == LowerChar(s[i])
  {
    if s == [] then [] else [LowerChar(s[0])] + Lower(s[1..])
  }

  lemma {:induction false} LowerAppend(a: string, b: string)
    ensures Lower(a + b) == Lower(a) + Lower(b)
    decreases |a|
  {
    if a == [] {
      assert a + b == b;
    } else {
      assert (a + b)[0] == a[0] && (a + b)[1..] == a[1..] + b;
      LowerAppend(a[1..], b);
    }
  }

  /** Python's `sub in s` on strings: `sub` occurs somewhere in `s`. */
  function Contains(s: string, sub: string): bool
    decreases |s|
  {
    sub <= s || (s != [] && Contains(s[1..], sub))
  }

  /** `sub` occurs in `s` starting at position `i`. */
  ghost predicate OccursAt(s: string, sub: string, i: int)
  {
    0 <= i && i + |sub| <= |s| && s[i..i + |sub|] == sub
  }

  /** The recursive test agrees with the positional definition of an occurrence. */
  lemma {:induction false} ContainsIffOccurs(s: string, sub: string)
    ensures Contains(s, sub) <==> exists i :: OccursAt(s, sub, i)
    decreases |s|
  {
    if sub <= s {
      assert OccursAt(s, sub, 0);
    } else if s != [] {
      ContainsIffOccurs(s[1..], sub);
      forall i | OccursAt(s, sub, i)
        ensures i >= 1 && OccursAt(s[1..], sub, i - 1)
      {
        if i >= 1 {
          assert s[i..i + |sub|] == s[1..][i - 1..i - 1 + |sub|];
        }
      }
      if Contains(s[1..], sub) {
        var j :| OccursAt(s[1..], sub, j);
        assert OccursAt(s, sub, j + 1);
      }
    }
  }

  /** A string built around `b` contains `b`. */
  lemma ContainsInfix(a: string, b: string, c: string)
    ensures Contains(a + b + c, b)
  {
    var s := a + b + c;
    assert s[|a|..|a| + |b|] == b;
    assert OccursAt(s, b, |a|);
    ContainsIffOccurs(s, b);
  }

  /** A string that lacks one of the characters of `sub` cannot contain `sub`. */
  lemma {:induction false} MissingCharNotContained(s: string, sub: string, c: char)
    requires c in sub && c !in s
    ensures !Contains(s, sub)
    decreases |s|
  {
    var k :| 0 <= k < |sub| && sub[k] == c;
    assert k < |s| ==> s[k] != c;
    assert !(sub <= s);
    if s != [] {
      assert c !in s[1..] by {
        forall j | 0 <= j < |s[1..]| ensures s[1..][j] != c {
          assert s[1..][j] == s[j + 1];
        }
      }
      MissingCharNotContained(s[1..], sub, c);
    }
  }

  /**
   * SQL `s LIKE p` as PostgreSQL evaluates it: `%` matches any run of
   * characters, `_` any single character, and `\` (the default escape
   * character) makes the next pattern character literal.
   */
  function Like(s: string, p: string): bool
    decreases |s| + |p|
  {
    if p == [] then s == []
    else if p[0] == '%' then Like(s, p[1..]) || (s != [] && Like(s[1..], p))
    else if p[0] == '_' then s != [] && Like(s[1..], p[1..])
    else if p[0] == '\\' then |p| >= 2 && s != [] && s[0] == p[1] && Like(s[1..], p[2..])
    else s != [] && s[0] == p[0] && Like(s[1..], p[1..])
  }

  /** SQL `s ILIKE p`: LIKE after case folding of both sides. */
  function ILike(s: string, p: string): bool
  {
    Like(Lower(s), Lower(p))
  }

  /** A pattern fragment without any LIKE metacharacter. */
  predicate Literal(q: string)
  {
    forall i :: 0 <= i < |q| ==> q[i] != '%' && q[i] != '_' && q[i] != '\\'
  }

  lemma {:induction false} LikeAnything(s: string)
    ensures Like(s, "%")
    decreases |s|
  {
    assert "%"[1..] == [];
    if s != [] {
      LikeAnything(s[1..]);
    }
  }

  /** A literal followed by `%` matches exactly the strings it is a prefix of. */
  lemma {:induction false} LikeLiteralPrefix(s: string, q: string)
    requires Literal(q)
    ensures Like(s, q + "%") <==> q <= s
    decreases |q|
  {
    if q == [] {
      assert q + "%" == "%";
      LikeAnything(s);
    } else {
      var p := q + "%";
      assert p[0] == q[0];
      assert p[1..] == q[1..] + "%";
      assert Literal(q[1..]) by {
        forall i | 0 <= i < |q[1..]| ensures q[1..][i] == q[i + 1] { }
      }
      if s != [] {
        LikeLiteralPrefix(s[1..], q[1..]);
        assert q <= s <==> s[0] == q[0] && q[1..] <= s[1..];
      }
    }
  }

  /** `%q%` with a literal `q` is a plain substring test. */
  lemma {:induction false} LikeSubstring(s: string, q: string)
    requires Literal(q)
    ensures Like(s, "%" + q + "%") <==> Contains(s, q)
    decreases |s|
  {
    var p := "%" + q + "%";
    assert p[0] == '%';
    assert p[1..] == q + "%";
    LikeLiteralPrefix(s, q);
    if s != [] {
      LikeSubstring(s[1..], q);
    }
  }

  /**
   * The repository's name / surname / email filter, `ILIKE '%q%'`, is a
   * case-insensitive substring test whenever `q` holds no LIKE metacharacter.
   */
  lemma ILikeIsCaseInsensitiveContains(s: string, q: string)
    requires Literal(q)
    ensures ILike(s, "%" + q + "%") <==> Contains(Lower(s), Lower(q))
  {
    LowerAppend("%" + q, "%");
    LowerAppend("%", q);
    assert Lower("%") == "%";
    assert Literal(Lower(q));
    LikeSubstring(Lower(s), Lower(q));
  }
}
