/** SQLite's `LIKE` operator as the task queries use it: `%` matches any run of
    characters, `_` exactly one, and other characters match up to ASCII case. */
module SqlLike {
  import opened Text

  function Like(s: string, p: string): bool
    decreases |s| + |p|
  {
    if p == [] then s == []
    else if p[0] == '%' then Like(s, p[1..]) || (s != [] && Like(s[1..], p))
    else s != [] && (p[0] == '_' || LowerChar(s[0]) == LowerChar(p[0])) && Like(s[1..], p[1..])
  }

  predicate NoWildcards(q: string) {
    forall i :: 0 <= i < |q| ==> q[i] != '%' && q[i] != '_'
  }

  /** Case-insensitive (ASCII) substring test. */
  predicate ContainsFolded(s: string, q: string) {
    Contains(ToLower(s), ToLower(q))
  }

  lemma {:induction false} LikePercentMatchesAll(s: string)
    ensures Like(s, "%")
    decreases |s|
  {
    if s != [] {
      LikePercentMatchesAll(s[1..]);
    }
  }

  /** `q%` matches exactly the texts that start with `q`, up to case. */
  lemma {:induction false} LikePrefix(s: string, q: string)
    requires NoWildcards(q)
    ensures Like(s, q + "%") <==> |q| <= |s| && ToLower(s[..|q|]) == ToLower(q)
    decreases |q|
  {
    if q == [] {
      assert q + "%" == "%";
      LikePercentMatchesAll(s);
      assert ToLower(s[..0]) == ToLower(q) == [];
    } else {
      assert (q + "%")[0] == q[0];
      assert (q + "%")[1..] == q[1..] + "%";
      if s != [] {
        LikePrefix(s[1..], q[1..]);
        if |q| <= |s| {
          assert s[..|q|] == [s[0]] + s[1..][..|q| - 1];
          assert ToLower(s[..|q|]) == [LowerChar(s[0])] + ToLower(s[1..][..|q| - 1]);
          assert ToLower(q) == [LowerChar(q[0])] + ToLower(q[1..]);
          assert q[0] != '%' && q[0] != '_';
          if ToLower(s[..|q|]) == ToLower(q) {
            assert LowerChar(s[0]) == ToLower(s[..|q|])[0] == ToLower(q)[0] == LowerChar(q[0]);
            assert ToLower(s[1..][..|q| - 1]) == ToLower(s[..|q|])[1..] == ToLower(q)[1..] == ToLower(q[1..]);
          }
        }
      }
    }
  }

  /** `%r` matches exactly the texts with some suffix matching `r`. */
  lemma {:induction false} LikeLeadingPercent(s: string, r: string)
    ensures Like(s, "%" + r) <==> exists i :: 0 <= i <= |s| && Like(s[i..], r)
    decreases |s|
  {
    assert ("%" + r)[1..] == r;
    assert s[0..] == s;
    if s != [] {
      LikeLeadingPercent(s[1..], r);
      if exists i :: 0 <= i <= |s| && Like(s[i..], r) {
        var i :| 0 <= i <= |s| && Like(s[i..], r);
        if i > 0 {
          assert s[1..][i - 1..] == s[i..];
        }
      }
      if exists j :: 0 <= j <= |s[1..]| && Like(s[1..][j..], r) {
        var j :| 0 <= j <= |s[1..]| && Like(s[1..][j..], r);
        assert s[1..][j..] == s[j + 1..];
      }
    }
  }

  /** The substring search the repository builds, `%q%`, is a case-insensitive
      substring test whenever `q` itself has no wildcard characters. */
  lemma LikeInfixIsFoldedContains(s: string, q: string)
    requires NoWildcards(q)
    ensures Like(s, "%" + q + "%") <==> ContainsFolded(s, q)
  {
    assert "%" + q + "%" == "%" + (q + "%");
    LikeLeadingPercent(s, q + "%");
    var ls, lq := ToLower(s), ToLower(q);
    ContainsIffOccurs(ls, lq);
    forall i | 0 <= i <= |s|
      ensures Like(s[i..], q + "%") <==> OccursAt(ls, lq, i)
    {
      LikePrefix(s[i..], q);
      if |q| <= |s[i..]| {
        assert ToLower(s[i..][..|q|]) == ls[i..i + |q|];
      }
    }
    if ContainsFolded(s, q) {
      var i :| OccursAt(ls, lq, i);
      assert Like(s[i..], q + "%");
    }
  }

  /** Lower-casing keeps an occurrence an occurrence. */
  lemma ContainsFoldedOf(s: string, q: string)
    requires Contains(s, q)
    ensures ContainsFolded(s, q)
  {
    ContainsIffOccurs(s, q);
    var i :| OccursAt(s, q, i);
    assert ToLower(s)[i..i + |q|] == ToLower(s[i..i + |q|]);
    assert OccursAt(ToLower(s), ToLower(q), i);
    ContainsIffOccurs(ToLower(s), ToLower(q));
  }
}
